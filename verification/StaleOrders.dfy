/** When the pending list mirrors the book on return from `process_orders`, whatever parents
    the orders name: parents need not be older than their children, or exist at all. */
module StaleOrders {
  import opened Numbers
  import opened Orders
  import opened Ledgers
  import opened Fills
  import opened Brokers
  import opened BookLaws
  import opened RunLaws
  import opened BracketLaws

  /** The book invariant without the order of parents and children. */
  ghost predicate LooseBook(b: Broker) {
    BookIds(b.all) && Increasing(b.pending) && Copies(b.pending, b.all, 0) && Listed(b.all, b.pending)
  }

  /** Since `all0`, order `y` has been attempted as a main order with children and has failed. */
  predicate FailedMain(all0: seq<Order>, all: seq<Order>, m: Snapshot, y: nat) {
    && 1 <= y <= |all0| == |all|
    && var o := all0[y - 1];
    && o.Alive() && o.terms.parentId == 0 && o.childIds != []
    && (all[y - 1].status == Margin || (all[y - 1].status == Rejected && o.terms.dataIndex < |m.feeds|))
  }

  ghost predicate Failures(failed: set<nat>, all0: seq<Order>, all: seq<Order>, m: Snapshot) {
    |all0| == |all| && forall y :: y in failed <==> FailedMain(all0, all, m, y)
  }

  /** An order carried over to the next bar: a copy of the book, unless its parent has failed
      since; then the book has cancelled it. */
  predicate Carried(o: Order, all: seq<Order>, failed: set<nat>) {
    && 1 <= o.id <= |all| && o.Alive()
    && Agree(if o.terms.parentId in failed then o.Cancel() else o, all[o.id - 1])
  }

  ghost predicate CarriedOver(p: Pass, failed: set<nat>) {
    forall a :: 0 <= a < |p.still| ==> Carried(p.still[a], p.all, failed) && Has(p.pending, p.still[a].id, 0)
  }

  /** Whose parent has failed is dead before its turn. */
  predicate DeadBehind(p: Pass, i: nat, failed: set<nat>) {
    forall j :: i <= j < |p.pending| && p.pending[j].terms.parentId in failed ==> !p.pending[j].Alive()
  }

  /** The invariant of the loop before iteration `i`. */
  ghost predicate LoosePass(p: Pass, i: nat, failed: set<nat>) {
    && i <= |p.pending| && BookIds(p.all)
    && Increasing(p.pending) && Copies(p.pending, p.all, 0)
    && Increasing(p.still) && Before(p.still, p.pending, i) && ListedInPass(p, i)
    && CarriedOver(p, failed) && DeadBehind(p, i, failed)
  }

  lemma LooseParts(p: Pass, i: nat, failed: set<nat>)
    requires LoosePass(p, i, failed) && i < |p.pending|
    ensures BookIds(p.all) && CopyOf(p.pending[i], p.all)
  {
  }

  // ------------------------------------------------------------- one turn

  lemma CarriedStays(o: Order, all: seq<Order>, all': seq<Order>, id: nat, failed: set<nat>)
    requires Carried(o, all, failed) && OneMoves(all, all', id) && o.id != id
    ensures Carried(o, all', failed)
  {
  }

  lemma TurnCopied(p: Pass, i: nat, s: Step)
    requires i < |p.pending| && Increasing(p.pending) && Copies(p.pending, p.all, 0) && StepReport(p.pending[i], p.all, s)
    ensures Copies(AfterTurn(p, i, s).pending, s.all, 0)
  {
    hide OneMoves, Agree;
    var o, q := p.pending[i], AfterTurn(p, i, s);
    CopiesAfterMove(p.pending[..i], p.all, s.all, o.id);
    CopiesAfterMove(p.pending[i + 1..], p.all, s.all, o.id);
    forall j | 0 <= j < |q.pending| ensures CopyOf(q.pending[j], q.all) {
      if j < i {
        assert q.pending[j] == p.pending[..i][j];
      } else if j > i {
        assert q.pending[j] == p.pending[i + 1..][j - i - 1];
      }
    }
  }

  lemma TurnListedLoosely(p: Pass, i: nat, s: Step)
    requires i < |p.pending| && BookIds(p.all) && ListedInPass(p, i) && StepReport(p.pending[i], p.all, s)
    ensures ListedInPass(AfterTurn(p, i, s), i + 1) && BookIds(s.all)
  {
    var q := AfterTurn(p, i, s);
    forall k | 0 <= k < |q.all| && q.all[k].Alive()
      ensures Has(q.still, q.all[k].id, 0) || Has(q.pending, q.all[k].id, i + 1)
    {
      assert p.all[k].Alive() && p.all[k].id == q.all[k].id;
      HasAfterTurn(p, q, i, q.all[k].id);
    }
  }

  lemma TurnCarries(p: Pass, i: nat, s: Step, failed: set<nat>)
    requires i < |p.pending| && StepReport(p.pending[i], p.all, s) && p.pending[i].terms == s.order.terms
    requires Before(p.still, p.pending, i) && CarriedOver(p, failed) && DeadBehind(p, i, failed)
    requires p.pending[i].Alive() || s.order == p.pending[i]
    ensures CarriedOver(AfterTurn(p, i, s), failed)
  {
    hide OneMoves, Agree;
    var o, q := p.pending[i], AfterTurn(p, i, s);
    forall a | 0 <= a < |q.still| ensures Carried(q.still[a], q.all, failed) && Has(q.pending, q.still[a].id, 0) {
      if a < |p.still| {
        assert q.still[a] == p.still[a] && p.still[a].id < o.id;
        CarriedStays(p.still[a], p.all, s.all, o.id, failed);
        HasSameIds(p.pending, q.pending, p.still[a].id, 0);
      } else {
        assert q.still[a] == s.order && s.order.Alive();
        assert q.pending[i].id == s.order.id;
      }
    }
  }

  lemma LooseTurn(p: Pass, i: nat, s: Step, failed: set<nat>)
    requires LoosePass(p, i, failed) && i < |p.pending|
    requires StepReport(p.pending[i], p.all, s) && p.pending[i].terms == s.order.terms
    requires p.pending[i].Alive() || s.order == p.pending[i]
    ensures LoosePass(AfterTurn(p, i, s), i + 1, failed)
  {
    hide Copies, ListedInPass, CarriedOver, StepReport;
    TurnCopied(p, i, s);
    TurnListedLoosely(p, i, s);
    TurnCarries(p, i, s, failed);
    StepId(p.pending[i], p.all, s);
  }

  lemma StepId(o: Order, all: seq<Order>, s: Step)
    requires StepReport(o, all, s)
    ensures s.order.id == o.id
  {
  }

  // ------------------------------------------------ the brackets of a turn

  lemma LooseActivate(p: Pass, i: nat, failed: set<nat>, parentId: nat)
    requires LoosePass(p, i, failed)
    ensures LoosePass(p.(pending := Activate(p.pending, parentId)), i, failed)
  {
    var q := p.(pending := Activate(p.pending, parentId));
    forall j | 0 <= j < |q.pending| ensures CopyOf(q.pending[j], q.all) {
      assert CopyOf(p.pending[j], p.all);
    }
    forall k | 0 <= k < |q.all| && q.all[k].Alive()
      ensures Has(q.still, q.all[k].id, 0) || Has(q.pending, q.all[k].id, i)
    {
      if Has(p.pending, q.all[k].id, i) {
        HasSameIds(p.pending, q.pending, q.all[k].id, i);
      }
    }
    forall a | 0 <= a < |q.still| ensures Carried(q.still[a], q.all, failed) && Has(q.pending, q.still[a].id, 0) {
      HasSameIds(p.pending, q.pending, q.still[a].id, 0);
    }
  }

  /** Cancelling the children of a failed main order turns the kept ones among them stale. */
  lemma CancelCarries(p: Pass, r: Lists, failed: set<nat>, y: nat)
    requires Copies(p.pending, p.all, 0) && CarriedOver(p, failed) && y !in failed
    requires SameIds(p.pending, r.pending) && CancelledIn(Lists(p.all, p.pending), r.all, ChildrenOf(y)) && Copies(r.pending, r.all, 0)
    requires forall j :: 0 <= j < |p.pending| ==>
               r.pending[j] == if ChildrenOf(y).Selects(p.pending[j]) then p.pending[j].Cancel() else p.pending[j]
    ensures CarriedOver(p.(all := r.all, pending := r.pending), failed + {y})
  {
    hide Copies;
    forall a | 0 <= a < |p.still|
      ensures Carried(p.still[a], r.all, failed + {y}) && Has(r.pending, p.still[a].id, 0)
    {
      var o := p.still[a];
      assert Carried(o, p.all, failed);
      HasSameIds(p.pending, r.pending, o.id, 0);
      var j :| 0 <= j < |p.pending| && p.pending[j].id == o.id;
      CopyAt(p.pending, p.all, j);
      CopyAt(r.pending, r.all, j);
    }
  }

  lemma CopyAt(s: seq<Order>, all: seq<Order>, j: nat)
    requires Copies(s, all, 0) && j < |s|
    ensures CopyOf(s[j], all)
  {
  }

  lemma LooseCancel(p: Pass, i: nat, failed: set<nat>, y: nat)
    requires LoosePass(p, i, failed) && y !in failed
    ensures var r := CancelWhere(Lists(p.all, p.pending), ChildrenOf(y), 0);
            && LoosePass(p.(all := r.all, pending := r.pending), i, failed + {y})
            && CancelledIn(Lists(p.all, p.pending), r.all, ChildrenOf(y))
  {
    hide CancelledIn, CarriedOver, ListedInPass, CancelWhere, Copies;
    var s := Lists(p.all, p.pending);
    var r := CancelWhere(s, ChildrenOf(y), 0);
    CancelBook(s, ChildrenOf(y), 0);
    CancelPending(s, ChildrenOf(y), 0);
    CancelCarries(p, r, failed, y);
    ListedAfterCancel(p, r, ChildrenOf(y), i);
  }

  // -------------------------------------------------------- who has failed

  /** What the fate of an order says of its status. */
  lemma FateStatus(o: Order, all: seq<Order>, l: Ledger, m: Snapshot, cfg: Config)
    requires o.Alive()
    ensures var s := OrderStep(o, all, l, m, cfg);
            match s.fate
            case Kept => s.order.Alive()
            case Dropped => s.order.status == Expired || (s.order.status == Rejected && o.terms.dataIndex >= |m.feeds|)
            case Attempted => s.order.status in {Completed, Margin, Rejected} && o.terms.dataIndex < |m.feeds|
  {
    hide Sync, ParentFilled, SyncAcknowledged, FillPrice, Post, TrailMoves, CommissionInfo.Calculate;
  }

  predicate FailsAsMain(s: Step) {
    s.fate == Attempted && s.order.terms.parentId == 0 && s.order.childIds != [] && Failed(s.order)
  }

  lemma FailuresTurn(o: Order, all0: seq<Order>, p: Pass, m: Snapshot, cfg: Config, failed: set<nat>)
    requires BookIds(p.all) && CopyOf(o, p.all) && Advances(all0, p.all) && Failures(failed, all0, p.all, m)
    ensures var s := OrderStep(o, p.all, p.ledger, m, cfg);
            && Failures(if FailsAsMain(s) then failed + {o.id} else failed, all0, s.all, m)
            && (FailsAsMain(s) ==> o.id !in failed)
  {
    hide OrderStep;
    var s := OrderStep(o, p.all, p.ledger, m, cfg);
    OrderStepFacts(o, p.all, p.ledger, m, cfg);
    if o.Alive() {
      FateStatus(o, p.all, p.ledger, m, cfg);
      assert Evolves(all0[o.id - 1], p.all[o.id - 1]);
      assert !FailedMain(all0, p.all, m, o.id);
      assert FailedMain(all0, s.all, m, o.id) <==> FailsAsMain(s);
      forall y: nat | y != o.id ensures FailedMain(all0, s.all, m, y) <==> FailedMain(all0, p.all, m, y) {
        assert 1 <= y <= |all0| ==> s.all[y - 1] == p.all[y - 1];
      }
    }
  }

  lemma FailuresCancel(failed: set<nat>, all0: seq<Order>, s: Lists, r: seq<Order>, which: Selector, m: Snapshot)
    requires Failures(failed, all0, s.all, m) && CancelledIn(s, r, which)
    ensures Failures(failed, all0, r, m)
  {
    forall y: nat ensures FailedMain(all0, r, m, y) <==> FailedMain(all0, s.all, m, y) {
      if 1 <= y <= |r| && r[y - 1] != s.all[y - 1] {
        assert s.all[y - 1].Alive() && r[y - 1].status == Canceled;
      }
    }
  }

  lemma MovesAdvance(all0: seq<Order>, all: seq<Order>, all': seq<Order>, id: nat)
    requires Advances(all0, all) && OneMoves(all, all', id)
    ensures Advances(all0, all')
  {
    forall k | 0 <= k < |all0| ensures Evolves(all0[k], all'[k]) {
      assert Evolves(all0[k], all[k]);
    }
  }

  lemma CancelAdvances(all0: seq<Order>, s: Lists, r: seq<Order>, which: Selector)
    requires Advances(all0, s.all) && CancelledIn(s, r, which)
    ensures Advances(all0, r)
  {
    forall k | 0 <= k < |all0| ensures Evolves(all0[k], r[k]) {
      assert Evolves(all0[k], s.all[k]);
    }
  }

  // --------------------------------------------------------- the whole pass

  lemma LooseGroups(p: Pass, q: Pass, i: nat, failed: set<nat>)
    requires LoosePass(p, i, failed) && q == p.(groups := q.groups)
    ensures LoosePass(q, i, failed)
  {
  }

  lemma LooseStep(all0: seq<Order>, p: Pass, i: nat, m: Snapshot, cfg: Config, failed: set<nat>) returns (failed': set<nat>)
    requires LoosePass(p, i, failed) && i < |p.pending| && Advances(all0, p.all) && Failures(failed, all0, p.all, m)
    ensures var q := PassStep(p, i, m, cfg);
            LoosePass(q, i + 1, failed') && Advances(all0, q.all) && Failures(failed', all0, q.all, m)
  {
    hide OrderStep, CancelWhere, Activate, LoosePass, Failures, Advances, CancelledIn, OneMoves, CopyOf;
    var o := p.pending[i];
    LooseParts(p, i, failed);
    var s := OrderStep(o, p.all, p.ledger, m, cfg);
    OrderStepFacts(o, p.all, p.ledger, m, cfg);
    LooseTurn(p, i, s, failed);
    FailuresTurn(o, all0, p, m, cfg, failed);
    MovesAdvance(all0, p.all, s.all, o.id);
    var t := AfterTurn(p, i, s);
    failed' := failed;
    if s.fate == Attempted {
      var u := if s.order.terms.ocoGroupId != 0 && s.order.status == Completed
               then t.(groups := t.groups + [s.order.terms.ocoGroupId]) else t;
      LooseGroups(t, u, i + 1, failed);
      if s.order.status == Completed {
        LooseActivate(u, i + 1, failed, o.id);
      } else if FailsAsMain(s) {
        failed' := failed + {o.id};
        LooseCancel(u, i + 1, failed, o.id);
        var r := CancelWhere(Lists(u.all, u.pending), ChildrenOf(o.id), 0);
        FailuresCancel(failed', all0, Lists(u.all, u.pending), r.all, ChildrenOf(o.id), m);
        CancelAdvances(all0, Lists(u.all, u.pending), r.all, ChildrenOf(o.id));
      }
    }
  }

  lemma {:induction false} LooseRun(all0: seq<Order>, p: Pass, i: nat, m: Snapshot, cfg: Config, failed: set<nat>)
    returns (failed': set<nat>)
    requires i <= |p.pending| && LoosePass(p, i, failed) && Advances(all0, p.all) && Failures(failed, all0, p.all, m)
    ensures var q := RunPass(p, i, m, cfg);
            LoosePass(q, |q.pending|, failed') && Advances(all0, q.all) && Failures(failed', all0, q.all, m)
    decreases |p.pending| - i
  {
    hide LoosePass, PassStep, Failures, Advances;
    if i < |p.pending| {
      failed' := LooseStep(all0, p, i, m, cfg, failed);
      failed' := LooseRun(all0, PassStep(p, i, m, cfg), i + 1, m, cfg, failed');
    } else {
      failed' := failed;
    }
  }

  lemma LooseStarts(b: Broker, m: Snapshot)
    requires LooseBook(b)
    ensures LoosePass(Pass(b.all, b.pending, b.ledger, [], []), 0, {}) && Failures({}, b.all, b.all, m)
  {
  }

  // --------------------------------------------------------------- the sweep

  predicate Written(s: Lists, which: Selector, r: seq<Order>, j: nat)
    requires j < |s.pending| && 1 <= s.pending[j].id <= |r| == |s.all|
  {
    var o := s.pending[j];
    r[o.id - 1] == if which.Selects(o) && o.Alive() then o.Cancel() else s.all[o.id - 1]
  }

  predicate InRange(s: seq<Order>, n: nat) {
    forall j :: 0 <= j < |s| ==> 1 <= s[j].id <= n
  }

  /** A cancelling loop over orders that need not be copies of the book: it writes the
      cancelled ones into the book, and nothing else. */
  ghost predicate Wrote(s: Lists, which: Selector, r: seq<Order>, i: nat)
    requires InRange(s.pending, |s.all|)
  {
    && |r| == |s.all|
    && (forall k :: 0 <= k < |r| ==> r[k] == s.all[k] || (r[k].status == Canceled && Has(s.pending, k + 1, i)))
    && (forall j :: i <= j < |s.pending| ==> Written(s, which, r, j))
  }

  lemma {:induction false} WriteCancelled(s: Lists, which: Selector, i: nat)
    requires i <= |s.pending| && BookIds(s.all) && Increasing(s.pending) && InRange(s.pending, |s.all|)
    ensures var r := CancelWhere(s, which, i).all;
            BookIds(r) && Wrote(s, which, r, i)
    decreases |s.pending| - i
  {
    hide Sync, Selector.Selects, BookIds, Increasing, InRange, Wrote;
    if i == |s.pending| {
      WroteNothing(s, which);
    } else {
      var o := s.pending[i];
      var n := |s.all|;
      RangeAt(s.pending, n, i);
      if which.Selects(o) && o.Alive() {
        SyncAt(s.all, o.Cancel());
        var t := Lists(Sync(s.all, o.Cancel()), s.pending[i := o.Cancel()]);
        CancelIncreasing(s.pending, o.Cancel(), i, n);
        WriteCancelled(t, which, i + 1);
        WroteMore(s, t, which, CancelWhere(t, which, i + 1).all, i);
      } else {
        WriteCancelled(s, which, i + 1);
        WroteSame(s, which, CancelWhere(s, which, i + 1).all, i);
      }
    }
  }

  lemma RangeAt(s: seq<Order>, n: nat, i: nat)
    requires InRange(s, n) && i < |s|
    ensures 1 <= s[i].id <= n
  {
  }

  lemma CancelIncreasing(s: seq<Order>, o: Order, i: nat, n: nat)
    requires Increasing(s) && InRange(s, n) && i < |s| && o.id == s[i].id
    ensures Increasing(s[i := o]) && InRange(s[i := o], n)
  {
  }

  lemma WroteNothing(s: Lists, which: Selector)
    requires InRange(s.pending, |s.all|)
    ensures Wrote(s, which, s.all, |s.pending|)
  {
  }

  lemma WroteSame(s: Lists, which: Selector, r: seq<Order>, i: nat)
    requires i < |s.pending| && Increasing(s.pending) && InRange(s.pending, |s.all|) && Wrote(s, which, r, i + 1)
    requires !(which.Selects(s.pending[i]) && s.pending[i].Alive())
    ensures Wrote(s, which, r, i)
  {
    hide Selector.Selects;
    WrittenOnce(s, s, r, i);
  }

  lemma WroteMore(s: Lists, t: Lists, which: Selector, r: seq<Order>, i: nat)
    requires i < |s.pending| && Increasing(s.pending) && InRange(s.pending, |s.all|)
    requires which.Selects(s.pending[i]) && s.pending[i].Alive()
    requires var c := s.pending[i].Cancel(); t == Lists(s.all[c.id - 1 := c], s.pending[i := c])
    requires InRange(t.pending, |t.all|) && Wrote(t, which, r, i + 1)
    ensures Wrote(s, which, r, i)
  {
    hide Selector.Selects;
    WrittenOnce(s, t, r, i);
    forall j | i <= j < |s.pending| ensures Written(s, which, r, j) {
      assert j > i ==> Written(t, which, r, j) && t.pending[j] == s.pending[j] && t.pending[j].id != s.pending[i].id;
    }
  }

  lemma OnlyThere(s: seq<Order>, t: seq<Order>, i: nat)
    requires i < |s| && Increasing(s) && SameIds(s, t)
    ensures !Has(t, s[i].id, i + 1)
  {
    assert forall j :: i + 1 <= j < |t| ==> t[j].id == s[j].id;
  }

  lemma WrittenOnce(s: Lists, t: Lists, r: seq<Order>, i: nat)
    requires i < |s.pending| && Increasing(s.pending) && 1 <= s.pending[i].id <= |r| == |t.all| == |s.all|
    requires SameIds(s.pending, t.pending)
    requires forall k :: 0 <= k < |t.all| && k != s.pending[i].id - 1 ==> t.all[k] == s.all[k]
    requires t.all[s.pending[i].id - 1] == s.all[s.pending[i].id - 1] || t.all[s.pending[i].id - 1].status == Canceled
    requires forall k :: 0 <= k < |r| ==> r[k] == t.all[k] || (r[k].status == Canceled && Has(t.pending, k + 1, i + 1))
    ensures r[s.pending[i].id - 1] == t.all[s.pending[i].id - 1]
    ensures forall k :: 0 <= k < |r| ==> r[k] == s.all[k] || (r[k].status == Canceled && Has(s.pending, k + 1, i))
  {
    var id := s.pending[i].id;
    assert !Has(t.pending, id, i + 1) by { OnlyThere(s.pending, t.pending, i); }
    forall k | 0 <= k < |r| && r[k] != s.all[k] ensures r[k].status == Canceled && Has(s.pending, k + 1, i) {
      if k == id - 1 {
        assert s.pending[i].id == k + 1;
      } else {
        var j :| i + 1 <= j < |t.pending| && t.pending[j].id == k + 1;
        assert s.pending[j].id == k + 1;
      }
    }
  }

  /** The list and the book on return: what is left of the list is alive and as it was, the
      rest has been cancelled, and the book has changed at cancelled orders only. */
  ghost predicate Left(p: Pass, r: Lists)
    requires InRange(p.still, |p.all|)
  {
    && BookIds(r.all) && |r.all| == |p.all| && Increasing(r.pending)
    && (forall k :: 0 <= k < |r.all| ==> r.all[k] == p.all[k] || (r.all[k].status == Canceled && Has(p.still, k + 1, 0)))
    && (forall x :: x in r.pending ==> x in p.still)
    && (forall a :: 0 <= a < |p.still| ==> LeftAt(p, r, a))
  }

  predicate LeftAt(p: Pass, r: Lists, a: nat)
    requires a < |p.still| && 1 <= p.still[a].id <= |p.all| == |r.all|
  {
    var x := p.still[a];
    if x in r.pending then r.all[x.id - 1] == p.all[x.id - 1] else r.all[x.id - 1].status == Canceled
  }

  lemma SweepLeaves(p: Pass)
    requires BookIds(p.all) && Increasing(p.still) && InRange(p.still, |p.all|) && AllAlive(p.still)
    ensures Left(p, Sweep(p))
  {
    hide AliveOnly, CancelWhere, Selector.Selects, BookIds, Wrote, LeftAt;
    var s, which := Lists(p.all, p.still), InGroups(p.groups);
    var q := CancelWhere(s, which, 0);
    WriteCancelled(s, which, 0);
    CancelPending(s, which, 0);
    AliveOnlyFacts(q.pending);
    assert SameIds(p.still, q.pending);
    WroteParts(s, which, q.all);
    forall a | 0 <= a < |p.still| ensures LeftAt(p, Sweep(p), a) {
      SweptAt(p, q, which, a);
    }
    forall x | x in AliveOnly(q.pending) ensures x in p.still {
      var j :| 0 <= j < |q.pending| && q.pending[j] == x;
    }
  }

  lemma WroteParts(s: Lists, which: Selector, r: seq<Order>)
    requires InRange(s.pending, |s.all|) && Wrote(s, which, r, 0)
    ensures |r| == |s.all|
    ensures forall k :: 0 <= k < |r| ==> r[k] == s.all[k] || (r[k].status == Canceled && Has(s.pending, k + 1, 0))
  {
  }

  lemma SweptAt(p: Pass, q: Lists, which: Selector, a: nat)
    requires InRange(p.still, |p.all|) && Increasing(p.still) && AllAlive(p.still) && a < |p.still| == |q.pending|
    requires Wrote(Lists(p.all, p.still), which, q.all, 0)
    requires forall j :: 0 <= j < |p.still| ==> q.pending[j] == if which.Selects(p.still[j]) then p.still[j].Cancel() else p.still[j]
    ensures LeftAt(p, Lists(q.all, AliveOnly(q.pending)), a)
  {
    hide AliveOnly, Selector.Selects;
    AliveOnlyFacts(q.pending);
    var x := p.still[a];
    assert Written(Lists(p.all, p.still), which, q.all, a);
    if which.Selects(x) {
      forall j | 0 <= j < |q.pending| ensures q.pending[j] != x {
        assert j == a || q.pending[j].id != x.id;
      }
    } else {
      assert q.pending[a] in q.pending;
    }
  }

  lemma StillInRange(p: Pass, failed: set<nat>)
    requires LoosePass(p, |p.pending|, failed)
    ensures BookIds(p.all) && Increasing(p.still) && InRange(p.still, |p.all|) && AllAlive(p.still)
  {
    hide ListedInPass, Before, DeadBehind;
    forall j | 0 <= j < |p.still| ensures 1 <= p.still[j].id <= |p.all| && p.still[j].Alive() {
      assert Carried(p.still[j], p.all, failed);
    }
  }

  // ------------------------------------------------------------- on return

  /** What `process_orders` returns, with or without a sweep. */
  lemma ProcessLeaves(b: Broker, m: Snapshot) returns (p: Pass, failed: set<nat>)
    requires LooseBook(b)
    ensures LoosePass(p, |p.pending|, failed) && Failures(failed, b.all, p.all, m)
    ensures InRange(p.still, |p.all|) && Left(p, Lists(Process(b, m).all, Process(b, m).pending))
  {
    hide LoosePass, RunPass, Sweep, Failures, Left, InRange;
    var p0 := Pass(b.all, b.pending, b.ledger, [], []);
    LooseStarts(b, m);
    failed := LooseRun(b.all, p0, 0, m, b.config, {});
    p := RunPass(p0, 0, m, b.config);
    StillInRange(p, failed);
    SweepLeaves(p);
    NoSweep(p);
  }

  lemma NoSweep(p: Pass)
    requires BookIds(p.all) && Increasing(p.still) && InRange(p.still, |p.all|)
    ensures Left(p, Lists(p.all, p.still))
  {
  }

  /** Nothing that a sweep cancels has failed as a main order. */
  lemma FailedStays(b: Broker, p: Pass, r: Lists, m: Snapshot, failed: set<nat>, y: nat)
    requires LoosePass(p, |p.pending|, failed) && Failures(failed, b.all, p.all, m)
    requires InRange(p.still, |p.all|) && Left(p, r)
    ensures FailedMain(b.all, r.all, m, y) <==> y in failed
  {
    hide ListedInPass, Before, DeadBehind, LeftAt, Copies, Increasing;
    if 1 <= y <= |r.all| && r.all[y - 1] != p.all[y - 1] {
      var a :| 0 <= a < |p.still| && p.still[a].id == y;
      assert Carried(p.still[a], p.all, failed);
    }
  }

  /** A pending order on return is a copy of the book exactly if its parent has not failed. */
  lemma LeftIsCopyIff(b: Broker, p: Pass, r: Lists, m: Snapshot, failed: set<nat>, x: Order)
    requires LoosePass(p, |p.pending|, failed) && Failures(failed, b.all, p.all, m)
    requires InRange(p.still, |p.all|) && Left(p, r) && x in r.pending
    ensures CopyOf(x, r.all) <==> !FailedMain(b.all, r.all, m, x.terms.parentId)
  {
    hide ListedInPass, Before, DeadBehind, FailedMain, Failures, Copies, Increasing;
    FailedStays(b, p, r, m, failed, x.terms.parentId);
    var a :| 0 <= a < |p.still| && p.still[a] == x;
    assert Carried(x, p.all, failed) && LeftAt(p, r, a);
    CarriedCopyIff(x, p.all, failed);
  }

  lemma CarriedCopyIff(x: Order, all: seq<Order>, failed: set<nat>)
    requires Carried(x, all, failed)
    ensures CopyOf(x, all) <==> x.terms.parentId !in failed
  {
  }

  /** On return every alive order of the book is pending. */
  lemma AliveAreLeft(p: Pass, r: Lists, failed: set<nat>)
    requires LoosePass(p, |p.pending|, failed) && InRange(p.still, |p.all|) && Left(p, r)
    ensures Listed(r.all, r.pending) && AllAlive(r.pending)
  {
    hide LoosePass;
    StillInRange(p, failed);
    forall k | 0 <= k < |r.all| && r.all[k].Alive() ensures Has(r.pending, r.all[k].id, 0) {
      var a := AliveInStill(p, failed, k);
      assert LeftAt(p, r, a);
      var j :| 0 <= j < |r.pending| && r.pending[j] == p.still[a];
    }
    forall j | 0 <= j < |r.pending| ensures r.pending[j].Alive() {
      assert r.pending[j] in p.still;
    }
  }

  lemma AliveInStill(p: Pass, failed: set<nat>, k: nat) returns (a: nat)
    requires LoosePass(p, |p.pending|, failed) && k < |p.all| && p.all[k].Alive()
    ensures a < |p.still| && p.still[a].id == k + 1
  {
    assert p.all[k].id == k + 1 && Has(p.still, k + 1, 0);
    a :| 0 <= a < |p.still| && p.still[a].id == k + 1;
  }

  lemma MirrorsAreCopies(s: seq<Order>, all: seq<Order>)
    requires BookIds(all) && Cleared(s) == Cleared(AliveOnly(all))
    ensures Copies(s, all, 0)
  {
    hide AliveOnly;
    AliveOnlyFacts(all);
    forall j | 0 <= j < |s| ensures CopyOf(s[j], all) {
      var t := AliveOnly(all);
      assert |s| == |Cleared(s)| == |t|;
      assert Cleared(s)[j] == Cleared(t)[j];
      assert t[j] in all;
      var k :| 0 <= k < |all| && all[k] == t[j];
    }
  }

  /** Exactly when the pending list mirrors the book on return from `process_orders`: if and
      only if no order left pending names as its parent a main order that this call has
      attempted and seen fail. */
  lemma MirrorOnReturnIff(b: Broker, m: Snapshot)
    requires LooseBook(b)
    ensures var c := Process(b, m);
            Cleared(c.pending) == Cleared(AliveOnly(c.all)) <==>
            forall x :: x in c.pending ==> !FailedMain(b.all, c.all, m, x.terms.parentId)
  {
    hide Process, LooseBook, FailedMain, AliveOnly, CopyOf, LoosePass, Failures, Left, InRange, BookIds;
    var p, failed := ProcessLeaves(b, m);
    var c := Process(b, m);
    var r := Lists(c.all, c.pending);
    forall j | 0 <= j < |c.pending| ensures CopyOf(c.pending[j], c.all) <==> !FailedMain(b.all, c.all, m, c.pending[j].terms.parentId) {
      LeftIsCopyIff(b, p, r, m, failed, c.pending[j]);
    }
    AliveAreLeft(p, r, failed);
    LeftParts(p, r);
    if Cleared(c.pending) == Cleared(AliveOnly(c.all)) {
      MirrorsAreCopies(c.pending, c.all);
    }
    if forall x :: x in c.pending ==> !FailedMain(b.all, c.all, m, x.terms.parentId) {
      assert forall j :: 0 <= j < |c.pending| ==> c.pending[j] in c.pending;
      MirrorUnique(c.pending, c.all);
    }
  }

  lemma LeftParts(p: Pass, r: Lists)
    requires InRange(p.still, |p.all|) && Left(p, r)
    ensures BookIds(r.all) && Increasing(r.pending)
  {
  }
}
