/** The broker as a state machine on values (`broker.hpp`): submission, brackets,
    cancellation and the per-bar pass over the pending orders. */
module Brokers {
  import opened Numbers
  import opened Orders
  import opened Positions
  import opened Ledgers
  import opened Fills

  /** One state of the broker in back-test mode, base currency only. */
  datatype Broker = Broker(
    config: Config,
    initialCash: real,
    all: seq<Order>,
    pending: seq<Order>,
    ledger: Ledger,
    nextOrderId: nat,
    nextOcoGroupId: nat)

  function Fresh(cash: real, config: Config): Broker {
    Broker(config, cash, [], [], Ledger(cash, [], [], [], 1), 1, 1)
  }

  /** The verdict of the pre-order hook (without a hook: accept the size as proposed). */
  datatype Verdict = Verdict(candidateId: nat, finalSize: real, rejected: bool)

  datatype OrderParams = OrderParams(
    typ: OrderType,
    price: real,
    stopPrice: Option<real>,
    dataIndex: nat,
    validUntilBar: Option<nat>,
    trailAmount: real,
    trailPercent: real,
    ocoGroupId: nat,
    parentId: nat,
    transmit: bool)

  function MarketParams(dataIndex: nat): OrderParams {
    OrderParams(Market, 0.0, None, dataIndex, None, 0.0, 0.0, 0, 0, true)
  }

  // ------------------------------------------------------------- the book

  /** Position of the first order with the given id. */
  function IdIndex(s: seq<Order>, id: nat): (k: nat)
    ensures k <= |s|
    ensures k < |s| ==> s[k].id == id
    ensures forall j :: 0 <= j < k ==> s[j].id != id
  {
    if s == [] || s[0].id == id then 0 else 1 + IdIndex(s[1..], id)
  }

  /** `sync_order`: the stored order with this id becomes a copy. */
  function Sync(all: seq<Order>, o: Order): (r: seq<Order>)
    ensures |r| == |all|
  {
    var k := IdIndex(all, o.id);
    if k < |all| then all[k := o] else all
  }

  predicate ParentFilled(all: seq<Order>, parentId: nat) {
    var k := IdIndex(all, parentId);
    k < |all| && all[k].status == Completed
  }

  function NewOrder(id: nat, side: Side, params: OrderParams, v: Verdict): Order {
    var terms := Terms(params.typ, side, v.finalSize, params.price, params.stopPrice, params.dataIndex, v.candidateId,
                       params.validUntilBar, params.trailAmount, params.trailPercent, params.ocoGroupId, params.parentId);
    Order(id, terms, [], Created, NOT_EXECUTED, 0.0, params.transmit)
  }

  /** The id `Submit` returns; zero when the hook rejects. */
  function SubmittedId(b: Broker, v: Verdict): nat {
    if v.rejected then 0 else b.nextOrderId
  }

  /** `submit_order`, `submit_order_ext`. */
  function Submit(b: Broker, side: Side, params: OrderParams, v: Verdict): Broker {
    if v.rejected then b
    else
      var o := NewOrder(b.nextOrderId, side, params, v);
      b.(all := b.all + [o], pending := b.pending + [o], nextOrderId := b.nextOrderId + 1)
  }

  function WithChildren(s: seq<Order>, id: nat, children: seq<nat>): (r: seq<Order>)
    ensures |r| == |s|
  {
    var k := IdIndex(s, id);
    if k < |s| then s[k := s[k].(childIds := children)] else s
  }

  function Opposite(side: Side): Side {
    if side == Buy then Sell else Buy
  }

  function TakeProfitParams(limitPrice: real, dataIndex: nat, main: nat, group: nat): OrderParams {
    MarketParams(dataIndex).(typ := Limit, price := limitPrice, parentId := main, ocoGroupId := group, transmit := false)
  }

  function StopLossParams(stopPrice: real, dataIndex: nat, main: nat, group: nat): OrderParams {
    MarketParams(dataIndex).(typ := Stop, stopPrice := Some(stopPrice), parentId := main, ocoGroupId := group, transmit := false)
  }

  /** `buy_bracket` and `sell_bracket`: a market order with a take-profit and a stop-loss
      that are held until it fills and cancel each other. */
  function Bracket(b: Broker, side: Side, limitPrice: real, stopPrice: real, dataIndex: nat,
                   vMain: Verdict, vLimit: Verdict, vStop: Verdict): Broker
  {
    var group := b.nextOcoGroupId;
    var b0 := b.(nextOcoGroupId := group + 1);
    var main := SubmittedId(b0, vMain);
    var b1 := Submit(b0, side, MarketParams(dataIndex), vMain);
    var limit := SubmittedId(b1, vLimit);
    var b2 := Submit(b1, Opposite(side), TakeProfitParams(limitPrice, dataIndex, main, group), vLimit);
    var stop := SubmittedId(b2, vStop);
    var b3 := Submit(b2, Opposite(side), StopLossParams(stopPrice, dataIndex, main, group), vStop);
    b3.(all := WithChildren(b3.all, main, [limit, stop]), pending := WithChildren(b3.pending, main, [limit, stop]))
  }

  /** The book in the middle of a loop over the pending orders. */
  datatype Lists = Lists(all: seq<Order>, pending: seq<Order>)

  /** Which pending orders a loop cancels. */
  datatype Selector = WithId(id: nat) | ChildrenOf(parentId: nat) | InGroups(groups: seq<nat>) {
    predicate Selects(o: Order) {
      match this
      case WithId(id) => o.id == id
      case ChildrenOf(parentId) => o.terms.parentId == parentId
      case InGroups(groups) => o.terms.ocoGroupId != 0 && o.terms.ocoGroupId in groups
    }
  }

  /** Cancels the alive pending orders a loop selects, from index `i` on. */
  function CancelWhere(s: Lists, which: Selector, i: nat): (r: Lists)
    requires i <= |s.pending|
    ensures |r.all| == |s.all| && |r.pending| == |s.pending|
    decreases |s.pending| - i
  {
    if i == |s.pending| then s
    else
      var o := s.pending[i];
      if which.Selects(o) && o.Alive() then
        CancelWhere(Lists(Sync(s.all, o.Cancel()), s.pending[i := o.Cancel()]), which, i + 1)
      else
        CancelWhere(s, which, i + 1)
  }

  /** `cancel_order`. */
  function Cancel(b: Broker, id: nat): Broker {
    var r := CancelWhere(Lists(b.all, b.pending), WithId(id), 0);
    b.(all := r.all, pending := r.pending)
  }

  /** `close`: an order against the position, if there is one. */
  function Close(b: Broker, dataIndex: nat, v: Verdict): Broker {
    var ps := WithPosition(b.ledger.positions, dataIndex);
    var p := PositionAt(ps, dataIndex);
    var b := b.(ledger := b.ledger.(positions := ps));
    if p.IsFlat() then b
    else Submit(b, if p.IsLong() then Sell else Buy, MarketParams(dataIndex), v)
  }

  // ---------------------------------------------------- one bar's pass

  /** What the pass looks at: the current bar of every data feed (`None` for a feed
      without data) and the bar index. */
  datatype Snapshot = Snapshot(feeds: seq<Option<Bar>>, bar: nat)

  /** What became of an order in the pass: dropped without an attempt, kept for the next
      bar, or attempted with a definite outcome. */
  datatype Fate = Dropped | Kept | Attempted

  datatype Step = Step(order: Order, all: seq<Order>, ledger: Ledger, fate: Fate)

  /** `submit` and `accept`, each copied to the book. */
  function Acknowledged(o: Order): Order {
    if o.status == Created then o.Submit().Accept() else o
  }

  function SyncAcknowledged(all: seq<Order>, o: Order): (r: seq<Order>)
    ensures |r| == |all|
  {
    if o.status == Created then Sync(Sync(all, o.Submit()), o.Submit().Accept()) else all
  }

  /** An attempt to fill, with the trailing stop moved if nothing came of it. */
  function AttemptStep(o: Order, all: seq<Order>, l: Ledger, bar: Bar, cfg: Config, barIndex: nat): (r: Step)
    ensures |r.all| == |all|
  {
    var a := TryFill(o, bar, cfg, barIndex, l);
    if a.done then Step(a.order, Sync(all, a.order), a.ledger, Attempted)
    else if o.IsTrail() && TrailMoves(o, bar) then Step(Trailed(o, bar), Sync(all, Trailed(o, bar)), l, Kept)
    else Step(o, all, l, Kept)
  }

  predicate Held(o: Order) {
    !o.transmit && o.terms.parentId != 0
  }

  /** Body of the loop in `process_orders`, up to the hand-over to the bracket and OCO logic. */
  function OrderStep(o: Order, all: seq<Order>, l: Ledger, m: Snapshot, cfg: Config): (r: Step)
    ensures |r.all| == |all|
  {
    if !o.Alive() then Step(o, all, l, Dropped)
    else if Held(o) && !ParentFilled(all, o.terms.parentId) then Step(o, all, l, Kept)
    else
      var o := if Held(o) then o.(transmit := true) else o;
      if o.terms.dataIndex >= |m.feeds| then Step(o.Reject(), Sync(all, o.Reject()), l, Dropped)
      else if m.feeds[o.terms.dataIndex] == None then Step(o, all, l, Kept)
      else if o.terms.validUntilBar.Some? && m.bar > o.terms.validUntilBar.value then
        Step(o.Expire(), Sync(all, o.Expire()), l, Dropped)
      else
        AttemptStep(Acknowledged(o), SyncAcknowledged(all, o), l, m.feeds[o.terms.dataIndex].value, cfg, m.bar)
  }

  /** The local state of `process_orders`. */
  datatype Pass = Pass(all: seq<Order>, pending: seq<Order>, ledger: Ledger, still: seq<Order>, groups: seq<nat>)

  /** `activate_bracket_children`. */
  function Activate(pending: seq<Order>, parentId: nat): (r: seq<Order>)
    ensures |r| == |pending|
  {
    seq(|pending|, i requires 0 <= i < |pending| =>
      if pending[i].terms.parentId == parentId && !pending[i].transmit then pending[i].(transmit := true) else pending[i])
  }

  predicate Failed(o: Order) {
    o.status in {Canceled, Rejected, Margin, Expired}
  }

  /** One iteration of the loop in `process_orders`. */
  function PassStep(p: Pass, i: nat, m: Snapshot, cfg: Config): (r: Pass)
    requires i < |p.pending|
    ensures |r.pending| == |p.pending| && |r.all| == |p.all|
  {
    var s := OrderStep(p.pending[i], p.all, p.ledger, m, cfg);
    var p := p.(all := s.all, pending := p.pending[i := s.order], ledger := s.ledger);
    match s.fate
    case Dropped => p
    case Kept => p.(still := p.still + [s.order])
    case Attempted =>
      var o := s.order;
      var p := if o.terms.ocoGroupId != 0 && o.status == Completed then p.(groups := p.groups + [o.terms.ocoGroupId]) else p;
      if o.status == Completed && o.childIds != [] then
        p.(pending := Activate(p.pending, o.id))
      else if o.terms.parentId == 0 && o.childIds != [] && Failed(o) then
        var r := CancelWhere(Lists(p.all, p.pending), ChildrenOf(o.id), 0);
        p.(all := r.all, pending := r.pending)
      else
        p
  }

  function RunPass(p: Pass, i: nat, m: Snapshot, cfg: Config): (r: Pass)
    requires i <= |p.pending|
    ensures |r.all| == |p.all|
    decreases |p.pending| - i
  {
    if i == |p.pending| then p else RunPass(PassStep(p, i, m, cfg), i + 1, m, cfg)
  }

  function AliveOnly(s: seq<Order>): seq<Order> {
    if s == [] then []
    else if s[0].Alive() then [s[0]] + AliveOnly(s[1..])
    else AliveOnly(s[1..])
  }

  /** The one-cancels-other sweep over the orders still pending. */
  function Sweep(p: Pass): Lists {
    var r := CancelWhere(Lists(p.all, p.still), InGroups(p.groups), 0);
    Lists(r.all, AliveOnly(r.pending))
  }

  /** `process_orders`. */
  function Process(b: Broker, m: Snapshot): Broker {
    var p := RunPass(Pass(b.all, b.pending, b.ledger, [], []), 0, m, b.config);
    var r := if p.groups == [] then Lists(p.all, p.still) else Sweep(p);
    b.(all := r.all, pending := r.pending, ledger := p.ledger)
  }

  /** What a position adds to `portfolio_value` at the given closes. */
  function Mark(p: PositionState, closes: seq<real>): real {
    if !p.IsFlat() && p.dataIndex < |closes| then p.size * closes[p.dataIndex] else 0.0
  }

  function Marks(ps: seq<PositionState>, closes: seq<real>): seq<real> {
    seq(|ps|, i requires 0 <= i < |ps| => Mark(ps[i], closes))
  }

  /** `portfolio_value`. */
  function PortfolioValue(b: Broker, closes: seq<real>): real {
    b.ledger.cash + Sum(Marks(b.ledger.positions, closes))
  }

  // ---------------------------------------------------------------- runs

  /** What a back-test does to its broker.  The verdicts are whatever the hook answered. */
  datatype Event =
    | SubmitEvent(side: Side, params: OrderParams, verdict: Verdict)
    | BracketEvent(side: Side, limitPrice: real, stopPrice: real, dataIndex: nat,
                   mainVerdict: Verdict, limitVerdict: Verdict, stopVerdict: Verdict)
    | CancelEvent(id: nat)
    | CloseEvent(dataIndex: nat, verdict: Verdict)
    | OcoGroupEvent
    | ProcessEvent(market: Snapshot)

  function Apply(b: Broker, e: Event): Broker {
    match e
    case SubmitEvent(side, params, v) => Submit(b, side, params, v)
    case BracketEvent(side, limitPrice, stopPrice, d, vm, vl, vs) => Bracket(b, side, limitPrice, stopPrice, d, vm, vl, vs)
    case CancelEvent(id) => Cancel(b, id)
    case CloseEvent(d, v) => Close(b, d, v)
    case OcoGroupEvent => b.(nextOcoGroupId := b.nextOcoGroupId + 1)
    case ProcessEvent(m) => Process(b, m)
  }

  function Run(b: Broker, es: seq<Event>): Broker {
    if es == [] then b else Apply(Run(b, es[..|es| - 1]), es[|es| - 1])
  }
}
