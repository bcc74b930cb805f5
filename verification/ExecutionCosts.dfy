/** What an execution costs: the commission charged to the account, and the price that slippage
    asks for. */
module ExecutionCosts {
  import opened Numbers
  import opened Orders
  import opened Ledgers
  import opened Fills
  import opened FillLaws

  // ------------------------------------------------------------ commission

  /** A completed attempt pays size times price and the commission, which is a share of that
      amount, a fixed sum, or a sum per share, and the minimum where it falls short of it. */
  lemma CompletedPays(o: Order, bar: Bar, cfg: Config, barIndex: nat, l: Ledger)
    requires o.Alive() && o.terms.size > 0.0 && TryFill(o, bar, cfg, barIndex, l).order.status == Completed
    ensures var a, info := TryFill(o, bar, cfg, barIndex, l), cfg.commission;
            var x := a.order.execution;
            var amount := o.terms.size * x.price;
            var fee := if info.typ == Percentage then amount * info.rate
                       else if info.typ == Fixed then info.rate else o.terms.size * info.rate;
            && FillPrice(o, bar, cfg.slip) == At(x.price) && x.size == o.terms.size
            && x.commission == (if fee < info.minimum then info.minimum else fee)
            && a.ledger.cash == (if o.terms.side == Buy then l.cash - amount else l.cash + amount) - x.commission
  {
    hide FillPrice, Post;
    var price := FillPrice(o, bar, cfg.slip).price;
    CashOfPost(l, ToFill(o, price, cfg.commission.Calculate(o.terms.size, price), barIndex, bar.time));
    SaleBringsIn(o.terms.size, price);
  }

  /** It is posted as a fill of the order's feed and candidate, in the direction of the order, at
      the time of the bar and under the current bar index. */
  lemma CompletedPosts(o: Order, bar: Bar, cfg: Config, barIndex: nat, l: Ledger)
    requires o.Alive() && TryFill(o, bar, cfg, barIndex, l).order.status == Completed
    ensures var a := TryFill(o, bar, cfg, barIndex, l);
            && a.done && a.order == o.(status := Completed, execution := a.order.execution)
            && exists f: Fill ::
                 && a.ledger == Post(l, f) && f.dataIndex == o.terms.dataIndex && f.candidateId == o.terms.candidateId
                 && f.size == (if o.terms.side == Buy then o.terms.size else -o.terms.size)
                 && f.price == a.order.execution.price && f.commission == a.order.execution.commission
                 && f.bar == barIndex && f.time == bar.time
  {
    hide FillPrice, Post, CommissionInfo.Calculate;
    var price := FillPrice(o, bar, cfg.slip).price;
    var f := ToFill(o, price, cfg.commission.Calculate(o.terms.size, price), barIndex, bar.time);
    assert TryFill(o, bar, cfg, barIndex, l).ledger == Post(l, f);
  }

  /** With a percentage commission and no minimum, a buy lowers the cash by its amount and the
      share of it, and a sale raises it by the amount less the share. */
  lemma PercentageCosts(o: Order, bar: Bar, cfg: Config, barIndex: nat, l: Ledger)
    requires o.Alive() && o.terms.size > 0.0 && TryFill(o, bar, cfg, barIndex, l).order.status == Completed
    requires cfg.commission.typ == Percentage && cfg.commission.minimum <= 0.0 <= cfg.commission.rate
    requires TryFill(o, bar, cfg, barIndex, l).order.execution.price >= 0.0
    ensures var a, rate := TryFill(o, bar, cfg, barIndex, l), cfg.commission.rate;
            var amount := o.terms.size * a.order.execution.price;
            a.ledger.cash == if o.terms.side == Buy then l.cash - amount * (1.0 + rate) else l.cash + amount * (1.0 - rate)
  {
    hide TryFill, FillPrice;
    CompletedPays(o, bar, cfg, barIndex, l);
    var amount := o.terms.size * TryFill(o, bar, cfg, barIndex, l).order.execution.price;
    ProductNonNegative(o.terms.size, TryFill(o, bar, cfg, barIndex, l).order.execution.price);
    ProductNonNegative(amount, cfg.commission.rate);
    SlipAdds(amount, cfg.commission.rate);
    Shared(amount, cfg.commission.rate);
  }

  lemma Shared(x: real, share: real)
    ensures x * (1.0 + share) == x + x * share && x * (1.0 - share) == x - x * share
  {
  }

  /** A fixed commission is the same at every size and price, and never below the minimum. */
  lemma FixedIsFlat(c: CommissionInfo, size: real, price: real, size': real, price': real)
    requires c.typ == Fixed
    ensures c.Calculate(size, price) == c.Calculate(size', price')
    ensures c.Calculate(size, price) == if c.rate < c.minimum then c.minimum else c.rate
  {
  }

  /** A commission per share is additive in the size, and independent of the price. */
  lemma PerShareAdds(c: CommissionInfo, size: real, size': real, price: real, price': real)
    requires c.typ == PerShare && size >= 0.0 && size' >= 0.0 && c.minimum <= 0.0 <= c.rate
    ensures c.Calculate(size + size', price) == c.Calculate(size, price) + c.Calculate(size', price')
    ensures c.Calculate(1.0, price) == c.rate
  {
    assert (size + size') * c.rate == size * c.rate + size' * c.rate;
    ProductNonNegative(size, c.rate);
    ProductNonNegative(size', c.rate);
    ProductNonNegative(size + size', c.rate);
  }

  /** The minimum is charged exactly where the commission without it falls short. */
  lemma MinimumIff(c: CommissionInfo, low: real, size: real, price: real)
    requires low <= c.minimum && c.(minimum := low).Calculate(size, price) > low
    ensures var raw := c.(minimum := low).Calculate(size, price);
            && (raw < c.minimum ==> c.Calculate(size, price) == c.minimum)
            && (raw >= c.minimum ==> c.Calculate(size, price) == raw)
  {
  }

  /** The level a bar proposes for a trailing stop: behind its extreme price by the share of that
      price, or else by the fixed distance. */
  lemma LevelIs(o: Order, bar: Bar)
    ensures var share := o.terms.trailPercent;
            && (o.terms.side == Sell ==>
                  TrailLevel(o, bar) == bar.high - if share > 0.0 then bar.high * share else o.terms.trailAmount)
            && (o.terms.side == Buy ==>
                  TrailLevel(o, bar) == bar.low + if share > 0.0 then bar.low * share else o.terms.trailAmount)
  {
  }

  // -------------------------------------------------------------- slippage

  /** The price that slippage asks for: away from the price by a share of it, or else by a fixed
      amount, upwards for a buy and downwards for a sale. */
  predicate AskedFor(x: real, price: real, side: Side, s: Slippage) {
    var off := if s.perc != 0.0 then price * s.perc else s.fixed;
    x - price == if side == Buy then off else -off
  }

  predicate InBar(x: real, bar: Bar) {
    bar.low <= x <= bar.high
  }

  /** The slipped price is the one asked for if it lies in the bar, or may lie outside it.
      Otherwise there is no fill, or, if it may be matched, the price of the bar nearest to it. */
  lemma SlippedPrice(price: real, side: Side, bar: Bar, s: Slippage, x: real)
    requires bar.low <= bar.high && AskedFor(x, price, side, s)
    ensures var r := Slip(price, side, bar, s);
            if InBar(x, bar) || s.out then r == Some(x)
            else if !s.match_ then r == None
            else r.Some? && InBar(r.value, bar) && forall q: real :: InBar(q, bar) ==> Abs(r.value - x) <= Abs(q - x)
  {
    AskedIs(price, side, s, x);
    var r := Slip(price, side, bar, s);
    if !InBar(x, bar) && !s.out && s.match_ {
      NearestInBar(x, bar);
    }
  }

  lemma AskedIs(price: real, side: Side, s: Slippage, x: real)
    requires AskedFor(x, price, side, s)
    ensures x == if s.perc != 0.0 then price * (if side == Buy then 1.0 + s.perc else 1.0 - s.perc)
                 else if s.fixed != 0.0 then price + (if side == Buy then s.fixed else -s.fixed)
                 else price
  {
    Shared(price, s.perc);
  }

  lemma NearestInBar(x: real, bar: Bar)
    requires bar.low <= bar.high && !InBar(x, bar)
    ensures var q0 := if x < bar.low then bar.low else bar.high;
            InBar(q0, bar) && forall q: real :: InBar(q, bar) ==> Abs(q0 - x) <= Abs(q - x)
  {
  }

  /** Slippage on open prices is for market, stop and trailing stop orders, slippage on limit
      prices for the three limit types.  Where it does not apply, the price stands. */
  lemma SlippageApplies(o: Order, bar: Bar, s: Slippage)
    ensures var t, f := TriggerOf(o, bar), FillPrice(o, bar, s);
            var applies := if o.terms.typ == Market || o.terms.typ == Stop || o.terms.typ == StopTrail then s.onOpen else s.onLimit;
            && (!t.At? ==> f == t)
            && (t.At? && !applies ==> f == t)
            && (t.At? && applies ==>
                  match Slip(t.price, o.terms.side, bar, s) case Some(p) => f == At(p) case None => f == Untouched)
  {
    hide TriggerOf, Slip;
    SixTypes(o.terms.typ);
  }

  lemma SixTypes(typ: OrderType)
    ensures LimitType(typ) <==> !(typ == Market || typ == Stop || typ == StopTrail)
  {
    match typ
    case _ =>
  }
}
