/** The pending list mirrors the order book in every reachable state, and orders only
    move forward. */
module BookLaws {
  import opened Numbers
  import opened Orders
  import opened Ledgers
  import opened Fills
  import opened Brokers

  // --------------------------------------------------------- vocabulary

  predicate BookIds(all: seq<Order>) {
    forall k :: 0 <= k < |all| ==> all[k].id == k + 1
  }

  predicate ParentsEarlier(all: seq<Order>) {
    forall k :: 0 <= k < |all| ==> all[k].terms.parentId < all[k].id
  }

  predicate Increasing(s: seq<Order>) {
    forall i, j :: 0 <= i < j < |s| ==> s[i].id < s[j].id
  }

  /** `o` is a copy of the order the book stores under its id. */
  predicate CopyOf(o: Order, all: seq<Order>) {
    1 <= o.id <= |all| && Agree(o, all[o.id - 1])
  }

  predicate Copies(s: seq<Order>, all: seq<Order>, from: nat) {
    forall j :: from <= j < |s| ==> CopyOf(s[j], all)
  }

  ghost predicate Has(s: seq<Order>, id: nat, from: nat) {
    exists j :: from <= j < |s| && s[j].id == id
  }

  /** Every alive order of the book is pending. */
  ghost predicate Listed(all: seq<Order>, s: seq<Order>) {
    forall k :: 0 <= k < |all| && all[k].Alive() ==> Has(s, all[k].id, 0)
  }

  /** The book invariant. */
  ghost predicate BookOk(b: Broker) {
    && BookIds(b.all) && b.nextOrderId == |b.all| + 1
    && ParentsEarlier(b.all)
    && Increasing(b.pending) && Copies(b.pending, b.all, 0)
    && Listed(b.all, b.pending)
  }

  /** What may happen to a book: orders are added, and the old ones evolve. */
  predicate Advances(all: seq<Order>, all': seq<Order>) {
    |all| <= |all'| && forall k :: 0 <= k < |all| ==> Evolves(all[k], all'[k])
  }

  lemma AdvancesTransitive(a: seq<Order>, b: seq<Order>, c: seq<Order>)
    requires Advances(a, b) && Advances(b, c)
    ensures Advances(a, c)
  {
    forall k | 0 <= k < |a| ensures Evolves(a[k], c[k]) {
      assert Evolves(a[k], b[k]) && Evolves(b[k], c[k]);
    }
  }

  // ------------------------------------------------------------ the book

  lemma SyncAt(all: seq<Order>, o: Order)
    requires BookIds(all) && 1 <= o.id <= |all|
    ensures Sync(all, o) == all[o.id - 1 := o]
    ensures BookIds(Sync(all, o))
  {
    assert all[o.id - 1].id == o.id;
  }

  lemma ParentFilledAt(all: seq<Order>, id: nat)
    requires BookIds(all)
    ensures ParentFilled(all, id) <==> 1 <= id <= |all| && all[id - 1].status == Completed
  {
    if 1 <= id <= |all| {
      assert all[id - 1].id == id;
    }
  }

  /** Two books that differ in one order at most, which has evolved. */
  predicate OneMoves(all: seq<Order>, all': seq<Order>, id: nat) {
    && |all'| == |all| && 1 <= id <= |all|
    && all' == all[id - 1 := all'[id - 1]]
    && Evolves(all[id - 1], all'[id - 1])
  }

  /** An attempt to fill leaves the book with the order's new state. */
  lemma TryFillEvolves(o: Order, bar: Bar, cfg: Config, barIndex: nat, l: Ledger)
    requires o.Alive()
    ensures var a := TryFill(o, bar, cfg, barIndex, l);
            && Evolves(o, a.order) && a.order.transmit == o.transmit
            && a.done == !a.order.Alive()
            && (!a.done ==> a.order == o)
  {
  }

  lemma AttemptFacts(o: Order, all: seq<Order>, l: Ledger, bar: Bar, cfg: Config, barIndex: nat)
    requires BookIds(all) && o.Alive() && CopyOf(o, all)
    ensures var s := AttemptStep(o, all, l, bar, cfg, barIndex);
            && OneMoves(all, s.all, o.id) && o.terms == s.order.terms && o.childIds == s.order.childIds && o.id == s.order.id && Evolves(o, s.order)
            && CopyOf(s.order, s.all)
            && (if s.fate == Kept then s.order.Alive() else s.fate == Attempted && !s.order.Alive())
  {
    hide TryFill, TrailMoves, TrailLevel;
    TryFillEvolves(o, bar, cfg, barIndex, l);
    var a := TryFill(o, bar, cfg, barIndex, l);
    SyncAt(all, a.order);
    if !a.done {
      SyncAt(all, Trailed(o, bar));
    }
  }

  lemma AcknowledgeFacts(o: Order, all: seq<Order>)
    requires BookIds(all) && o.Alive() && CopyOf(o, all)
    ensures var p := Acknowledged(o);
            var all' := SyncAcknowledged(all, o);
            && OneMoves(all, all', o.id) && BookIds(all')
            && p.Alive() && Evolves(o, p) && CopyOf(p, all')
  {
    SyncAt(all, o.Submit());
    SyncAt(Sync(all, o.Submit()), o.Submit().Accept());
  }

  /** One order's turn in the pass touches that order only, and leaves the copy in step
      with the book. */
  lemma OrderStepFacts(o: Order, all: seq<Order>, l: Ledger, m: Snapshot, cfg: Config)
    requires BookIds(all) && CopyOf(o, all)
    ensures var s := OrderStep(o, all, l, m, cfg);
            && OneMoves(all, s.all, o.id) && o.terms == s.order.terms && o.childIds == s.order.childIds && o.id == s.order.id
            && CopyOf(s.order, s.all)
            && (s.fate == Kept <==> s.order.Alive())
            && (!o.Alive() ==> s.all == all && s.order == o && s.ledger == l && s.fate == Dropped)
            && (s.order.status == Completed && o.status != Completed ==> s.fate == Attempted)
  {
    hide AttemptStep, Sync, ParentFilled, Acknowledged, SyncAcknowledged;
    if o.Alive() && !(Held(o) && !ParentFilled(all, o.terms.parentId)) {
      var o := if Held(o) then o.(transmit := true) else o;
      SyncAt(all, o.Reject());
      SyncAt(all, o.Expire());
      if o.terms.dataIndex < |m.feeds| && m.feeds[o.terms.dataIndex] != None {
        AcknowledgeFacts(o, all);
        AttemptFacts(Acknowledged(o), SyncAcknowledged(all, o), l, m.feeds[o.terms.dataIndex].value, cfg, m.bar);
      }
    }
  }

  lemma OneMovesAdvances(all: seq<Order>, all': seq<Order>, id: nat)
    requires OneMoves(all, all', id) && BookIds(all) && ParentsEarlier(all)
    ensures Advances(all, all') && BookIds(all') && ParentsEarlier(all')
  {
  }

  // ------------------------------------------------------ cancelling loops

  /** A loop that cancels pending orders cancels exactly the selected alive ones. */
  lemma {:induction false} CancelPending(s: Lists, which: Selector, i: nat)
    requires i <= |s.pending|
    ensures var r := CancelWhere(s, which, i).pending;
            forall j :: 0 <= j < |s.pending| ==>
              r[j] == if j >= i && which.Selects(s.pending[j]) then s.pending[j].Cancel() else s.pending[j]
    decreases |s.pending| - i
  {
    hide Sync;
    if i < |s.pending| {
      var o := s.pending[i];
      if which.Selects(o) && o.Alive() {
        CancelPending(Lists(Sync(s.all, o.Cancel()), s.pending[i := o.Cancel()]), which, i + 1);
      } else {
        CancelPending(s, which, i + 1);
      }
    }
  }

  /** The book's side of a cancelling loop: only selected alive orders that are pending
      change, and they are cancelled. */
  predicate CancelledIn(s: Lists, r: seq<Order>, which: Selector) {
    && |r| == |s.all|
    && forall k :: 0 <= k < |s.all| && r[k] != s.all[k] ==>
         && which.Selects(s.all[k]) && s.all[k].Alive()
         && Agree(r[k], s.all[k].Cancel())
  }

  lemma CancelOne(s: Lists, t: Lists, o: Order, i: nat)
    requires i < |s.pending| && BookIds(s.all) && Increasing(s.pending) && Copies(s.pending, s.all, i)
    requires o == s.pending[i] && t == Lists(s.all[o.id - 1 := o.Cancel()], s.pending[i := o.Cancel()])
    ensures Increasing(t.pending) && Copies(t.pending, t.all, i)
  {
    forall j | i < j < |t.pending| ensures CopyOf(t.pending[j], t.all) {
      assert CopyOf(s.pending[j], s.all);
    }
  }

  /** Cancelling one order and then others cancels no more than selected alive orders. */
  lemma CancelledInStep(s: Lists, t: Lists, r: seq<Order>, which: Selector, o: Order)
    requires BookIds(s.all) && CopyOf(o, s.all) && which.Selects(o) && o.Alive()
    requires t.all == s.all[o.id - 1 := o.Cancel()] && CancelledIn(t, r, which)
    ensures CancelledIn(s, r, which) && CopyOf(o.Cancel(), r)
  {
    var j := o.id - 1;
    assert t.all[j] == o.Cancel() && r[j] == t.all[j];
    forall k | 0 <= k < |s.all| && r[k] != s.all[k]
      ensures which.Selects(s.all[k]) && s.all[k].Alive() && Agree(r[k], s.all[k].Cancel())
    {
      if k != j {
        assert t.all[k] == s.all[k];
      }
    }
  }

  lemma {:induction false} CancelBook(s: Lists, which: Selector, i: nat)
    requires i <= |s.pending| && BookIds(s.all)
    requires Increasing(s.pending) && Copies(s.pending, s.all, i)
    ensures var r := CancelWhere(s, which, i);
            && BookIds(r.all) && CancelledIn(s, r.all, which) && Copies(r.pending, r.all, i)
    decreases |s.pending| - i
  {
    hide Sync, Agree, CancelledIn, Selector.Selects;
    if i == |s.pending| {
      CancelledInNone(s, which);
    } else {
      var o := s.pending[i];
      assert CopyOf(o, s.all);
      if which.Selects(o) && o.Alive() {
        SyncAt(s.all, o.Cancel());
        var t := Lists(Sync(s.all, o.Cancel()), s.pending[i := o.Cancel()]);
        CancelOne(s, t, o, i);
        CancelBook(t, which, i + 1);
        CancelPending(t, which, i + 1);
        CancelledInStep(s, t, CancelWhere(t, which, i + 1).all, which, o);
      } else {
        CancelBook(s, which, i + 1);
        CancelPending(s, which, i + 1);
        CancelledInSkip(s, CancelWhere(s, which, i + 1).all, which, o);
      }
    }
  }

  lemma CancelledInNone(s: Lists, which: Selector)
    ensures CancelledIn(s, s.all, which)
  {
  }

  lemma CancelledInSkip(s: Lists, r: seq<Order>, which: Selector, o: Order)
    requires CancelledIn(s, r, which) && CopyOf(o, s.all) && !(which.Selects(o) && o.Alive())
    ensures CopyOf(o, r)
  {
  }

  // ------------------------------------------------------------ the pass

  predicate AllAlive(s: seq<Order>) {
    forall j :: 0 <= j < |s| ==> s[j].Alive()
  }

  /** Everything in `s` comes before everything in `t` from index `i` on. */
  predicate Before(s: seq<Order>, t: seq<Order>, i: nat) {
    forall a, j :: 0 <= a < |s| && i <= j < |t| ==> s[a].id < t[j].id
  }

  ghost predicate ListedInPass(p: Pass, i: nat) {
    forall k :: 0 <= k < |p.all| && p.all[k].Alive() ==> Has(p.still, p.all[k].id, 0) || Has(p.pending, p.all[k].id, i)
  }

  /** The invariant of the loop in `process_orders` before iteration `i`. */
  ghost predicate PassOk(p: Pass, i: nat) {
    && i <= |p.pending|
    && BookIds(p.all) && ParentsEarlier(p.all)
    && Increasing(p.pending) && Copies(p.pending, p.all, 0)
    && Increasing(p.still) && Copies(p.still, p.all, 0) && AllAlive(p.still)
    && Before(p.still, p.pending, i)
    && ListedInPass(p, i)
  }

  predicate SameIds(s: seq<Order>, t: seq<Order>) {
    |s| == |t| && forall j :: 0 <= j < |s| ==> s[j].id == t[j].id
  }

  lemma HasSameIds(s: seq<Order>, t: seq<Order>, id: nat, from: nat)
    requires SameIds(s, t) && Has(s, id, from)
    ensures Has(t, id, from)
  {
    var j :| from <= j < |s| && s[j].id == id;
    assert t[j].id == id;
  }

  lemma HasAppend(s: seq<Order>, o: Order, id: nat)
    requires Has(s, id, 0) || o.id == id
    ensures Has(s + [o], id, 0)
  {
    if o.id == id {
      assert (s + [o])[|s|].id == id;
    } else {
      var j :| 0 <= j < |s| && s[j].id == id;
      assert (s + [o])[j].id == id;
    }
  }

  /** The order whose turn it is leaves the unvisited part, and stays listed if alive. */
  lemma HasAfterTurn(p: Pass, q: Pass, i: nat, id: nat)
    requires i < |p.pending| && SameIds(p.pending, q.pending)
    requires q.still == p.still || q.still == p.still + [q.pending[i]]
    requires Has(p.still, id, 0) || Has(p.pending, id, i)
    requires id == p.pending[i].id ==> q.still != p.still
    ensures Has(q.still, id, 0) || Has(q.pending, id, i + 1)
  {
    if Has(p.still, id, 0) || id == p.pending[i].id {
      if q.still != p.still {
        HasAppend(p.still, q.pending[i], id);
      }
    } else {
      var j :| i <= j < |p.pending| && p.pending[j].id == id;
      assert q.pending[j].id == id;
    }
  }

  /** The turn itself, before brackets: the step's results are stored, and a kept order is
      carried over. */
  function AfterTurn(p: Pass, i: nat, s: Step): Pass
    requires i < |p.pending|
  {
    p.(all := s.all, pending := p.pending[i := s.order], ledger := s.ledger,
       still := if s.fate == Kept then p.still + [s.order] else p.still)
  }

  /** What a step reports about the order `o` whose turn it is. */
  predicate StepReport(o: Order, all: seq<Order>, s: Step) {
    && s.order.id == o.id && OneMoves(all, s.all, o.id) && CopyOf(s.order, s.all)
    && (s.fate == Kept <==> s.order.Alive())
  }

  lemma CopiesAfterMove(s: seq<Order>, all: seq<Order>, all': seq<Order>, id: nat)
    requires Copies(s, all, 0) && OneMoves(all, all', id) && forall j :: 0 <= j < |s| ==> s[j].id != id
    ensures Copies(s, all', 0)
  {
    forall j | 0 <= j < |s| ensures CopyOf(s[j], all') {
      assert CopyOf(s[j], all);
    }
  }

  lemma TurnCopies(p: Pass, i: nat, s: Step)
    requires PassOk(p, i) && i < |p.pending| && StepReport(p.pending[i], p.all, s)
    ensures var q := AfterTurn(p, i, s); Copies(q.pending, q.all, 0) && Copies(q.still, q.all, 0)
  {
    hide OneMoves, Agree;
    var o := p.pending[i];
    CopiesAfterMove(p.pending[..i], p.all, s.all, o.id);
    CopiesAfterMove(p.pending[i + 1..], p.all, s.all, o.id);
    CopiesAfterMove(p.still, p.all, s.all, o.id);
    var q := AfterTurn(p, i, s);
    forall j | 0 <= j < |q.pending| ensures CopyOf(q.pending[j], q.all) {
      if j < i {
        assert q.pending[j] == p.pending[..i][j];
      } else if j > i {
        assert q.pending[j] == p.pending[i + 1..][j - i - 1];
      }
    }
  }

  lemma TurnListed(p: Pass, i: nat, s: Step)
    requires PassOk(p, i) && i < |p.pending| && StepReport(p.pending[i], p.all, s)
    ensures ListedInPass(AfterTurn(p, i, s), i + 1)
  {
    var q := AfterTurn(p, i, s);
    forall k | 0 <= k < |q.all| && q.all[k].Alive()
      ensures Has(q.still, q.all[k].id, 0) || Has(q.pending, q.all[k].id, i + 1)
    {
      assert p.all[k].Alive() && p.all[k].id == q.all[k].id;
      HasAfterTurn(p, q, i, q.all[k].id);
    }
  }

  lemma TurnOk(p: Pass, i: nat, s: Step)
    requires PassOk(p, i) && i < |p.pending| && StepReport(p.pending[i], p.all, s)
    ensures PassOk(AfterTurn(p, i, s), i + 1) && Advances(p.all, s.all)
  {
    hide Advances, Copies, ListedInPass;
    OneMovesAdvances(p.all, s.all, p.pending[i].id);
    TurnCopies(p, i, s);
    TurnListed(p, i, s);
  }

  lemma ActivateOk(p: Pass, i: nat, parentId: nat)
    requires PassOk(p, i)
    ensures PassOk(p.(pending := Activate(p.pending, parentId)), i)
  {
    var q := p.(pending := Activate(p.pending, parentId));
    forall j | 0 <= j < |q.pending| ensures CopyOf(q.pending[j], q.all) {
      assert CopyOf(p.pending[j], p.all);
    }
    forall k | 0 <= k < |q.all| && q.all[k].Alive()
      ensures Has(q.still, q.all[k].id, 0) || Has(q.pending, q.all[k].id, i)
    {
      if Has(p.pending, q.all[k].id, i) {
        HasSameIds(p.pending, q.pending, q.all[k].id, i);
      }
    }
  }

  /** Cancelling children reaches only orders whose turn is still to come: a child has a
      larger id than its parent. */
  lemma CancelChildrenOk(p: Pass, i: nat, parentId: nat)
    requires PassOk(p, i) && forall a :: 0 <= a < |p.still| ==> p.still[a].id < parentId
    ensures var r := CancelWhere(Lists(p.all, p.pending), ChildrenOf(parentId), 0);
            && PassOk(p.(all := r.all, pending := r.pending), i) && Advances(p.all, r.all)
            && CancelledIn(Lists(p.all, p.pending), r.all, ChildrenOf(parentId))
  {
    hide CancelledIn, Advances, ListedInPass, Selector.Selects;
    var s := Lists(p.all, p.pending);
    var r := CancelWhere(s, ChildrenOf(parentId), 0);
    CancelBook(s, ChildrenOf(parentId), 0);
    CancelPending(s, ChildrenOf(parentId), 0);
    CancelledAdvances(s, r.all, ChildrenOf(parentId));
    ChildrenNotKept(p, r.all, parentId);
    ListedAfterCancel(p, r, ChildrenOf(parentId), i);
  }

  lemma ChildrenNotKept(p: Pass, r: seq<Order>, parentId: nat)
    requires Copies(p.still, p.all, 0) && ParentsEarlier(p.all) && BookIds(p.all)
    requires forall a :: 0 <= a < |p.still| ==> p.still[a].id < parentId
    requires CancelledIn(Lists(p.all, p.pending), r, ChildrenOf(parentId))
    ensures Copies(p.still, r, 0)
  {
    forall j | 0 <= j < |p.still| ensures CopyOf(p.still[j], r) {
      assert CopyOf(p.still[j], p.all);
      assert p.all[p.still[j].id - 1].terms.parentId < parentId;
    }
  }

  lemma ListedAfterCancel(p: Pass, r: Lists, which: Selector, i: nat)
    requires ListedInPass(p, i) && SameIds(p.pending, r.pending)
    requires CancelledIn(Lists(p.all, p.pending), r.all, which)
    ensures ListedInPass(p.(all := r.all, pending := r.pending), i)
  {
    var q := p.(all := r.all, pending := r.pending);
    forall k | 0 <= k < |q.all| && q.all[k].Alive()
      ensures Has(q.still, q.all[k].id, 0) || Has(q.pending, q.all[k].id, i)
    {
      assert q.all[k] == p.all[k];
      if Has(p.pending, q.all[k].id, i) {
        HasSameIds(p.pending, q.pending, q.all[k].id, i);
      }
    }
  }

  lemma CancelledAdvances(s: Lists, r: seq<Order>, which: Selector)
    requires CancelledIn(s, r, which) && ParentsEarlier(s.all)
    ensures Advances(s.all, r) && ParentsEarlier(r)
  {
  }

  /** One iteration keeps the invariant. */
  lemma PassStepOk(p: Pass, i: nat, m: Snapshot, cfg: Config)
    requires PassOk(p, i) && i < |p.pending|
    ensures var q := PassStep(p, i, m, cfg);
            PassOk(q, i + 1) && Advances(p.all, q.all)
  {
    hide OrderStep, Activate, CancelWhere, PassOk, Advances;
    var o := p.pending[i];
    assert CopyOf(o, p.all) && BookIds(p.all) by { PassOkParts(p, i); }
    var s := OrderStep(o, p.all, p.ledger, m, cfg);
    OrderStepFacts(o, p.all, p.ledger, m, cfg);
    TurnOk(p, i, s);
    var t := AfterTurn(p, i, s);
    if s.fate == Attempted {
      var t := if s.order.terms.ocoGroupId != 0 && s.order.status == Completed
               then t.(groups := t.groups + [s.order.terms.ocoGroupId]) else t;
      GroupsIrrelevant(AfterTurn(p, i, s), t, i + 1);
      ActivateOk(t, i + 1, o.id);
      PassOkParts(p, i);
      CancelChildrenOk(t, i + 1, o.id);
      AdvancesTransitive(p.all, t.all, CancelWhere(Lists(t.all, t.pending), ChildrenOf(o.id), 0).all);
    }
  }

  lemma PassOkParts(p: Pass, i: nat)
    requires PassOk(p, i) && i < |p.pending|
    ensures BookIds(p.all) && CopyOf(p.pending[i], p.all)
    ensures forall a :: 0 <= a < |p.still| ==> p.still[a].id < p.pending[i].id
  {
  }

  lemma GroupsIrrelevant(p: Pass, q: Pass, i: nat)
    requires PassOk(p, i) && q == p.(groups := q.groups)
    ensures PassOk(q, i)
  {
  }

  lemma {:induction false} RunPassOk(p: Pass, i: nat, m: Snapshot, cfg: Config)
    requires i <= |p.pending| && PassOk(p, i)
    ensures var q := RunPass(p, i, m, cfg);
            PassOk(q, |q.pending|) && Advances(p.all, q.all)
    decreases |p.pending| - i
  {
    hide PassOk, Advances, PassStep;
    if i < |p.pending| {
      PassStepOk(p, i, m, cfg);
      var q := PassStep(p, i, m, cfg);
      RunPassOk(q, i + 1, m, cfg);
      AdvancesTransitive(p.all, q.all, RunPass(q, i + 1, m, cfg).all);
    } else {
      AdvancesReflexive(p.all);
    }
  }

  lemma AdvancesReflexive(all: seq<Order>)
    ensures Advances(all, all)
  {
  }
}
