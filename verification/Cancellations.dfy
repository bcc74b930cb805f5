/** Why a call cancels an order: a member of its group has completed, or its parent has failed. */
module Cancellations {
  import opened Numbers
  import opened Orders
  import opened Ledgers
  import opened Fills
  import opened Brokers
  import opened BookLaws
  import opened RunLaws
  import opened BracketLaws
  import opened TurnLaws
  import opened StaleOrders

  /** Before the sweep only the children of failed main orders have been cancelled. */
  predicate OnlyChildren(all0: seq<Order>, all: seq<Order>, failed: set<nat>) {
    && |all0| == |all|
    && forall k :: 0 <= k < |all| && all0[k].Alive() && all[k].status == Canceled ==> all0[k].terms.parentId in failed
  }

  lemma OnlyChildrenTurn(all0: seq<Order>, o: Order, p: Pass, m: Snapshot, cfg: Config, failed: set<nat>)
    requires OnlyChildren(all0, p.all, failed) && BookIds(p.all) && CopyOf(o, p.all)
    ensures OnlyChildren(all0, OrderStep(o, p.all, p.ledger, m, cfg).all, failed)
  {
    hide OrderStep;
    OrderStepFacts(o, p.all, p.ledger, m, cfg);
    if o.Alive() {
      FateStatus(o, p.all, p.ledger, m, cfg);
    }
    var all := OrderStep(o, p.all, p.ledger, m, cfg).all;
    assert forall k :: 0 <= k < |all| && k != o.id - 1 ==> all[k] == p.all[k];
  }

  lemma OnlyChildrenCancel(all0: seq<Order>, s: Lists, r: seq<Order>, y: nat, failed: set<nat>)
    requires OnlyChildren(all0, s.all, failed) && CancelledIn(s, r, ChildrenOf(y)) && Advances(all0, s.all)
    ensures OnlyChildren(all0, r, failed + {y})
  {
    forall k | 0 <= k < |r| && all0[k].Alive() && r[k].status == Canceled ensures all0[k].terms.parentId in failed + {y} {
      assert Evolves(all0[k], s.all[k]);
    }
  }

  lemma CauseStep(all0: seq<Order>, p: Pass, i: nat, m: Snapshot, cfg: Config, failed: set<nat>) returns (failed': set<nat>)
    requires LoosePass(p, i, failed) && i < |p.pending| && Advances(all0, p.all) && Failures(failed, all0, p.all, m)
    requires OnlyChildren(all0, p.all, failed)
    ensures var q := PassStep(p, i, m, cfg);
            && LoosePass(q, i + 1, failed') && Advances(all0, q.all) && Failures(failed', all0, q.all, m)
            && OnlyChildren(all0, q.all, failed')
  {
    hide OrderStep, CancelWhere, Activate, LoosePass, Failures, Advances, CancelledIn, OneMoves, CopyOf, OnlyChildren;
    var o := p.pending[i];
    LooseParts(p, i, failed);
    var s := OrderStep(o, p.all, p.ledger, m, cfg);
    OrderStepFacts(o, p.all, p.ledger, m, cfg);
    LooseTurn(p, i, s, failed);
    FailuresTurn(o, all0, p, m, cfg, failed);
    MovesAdvance(all0, p.all, s.all, o.id);
    OnlyChildrenTurn(all0, o, p, m, cfg, failed);
    failed' := LooseStep(all0, p, i, m, cfg, failed);
    if FailsAsMain(s) {
      var t := AfterTurn(p, i, s);
      LooseCancel(t, i + 1, failed, o.id);
      var r := CancelWhere(Lists(t.all, t.pending), ChildrenOf(o.id), 0);
      OnlyChildrenCancel(all0, Lists(t.all, t.pending), r.all, o.id, failed);
      FailuresCancel(failed + {o.id}, all0, Lists(t.all, t.pending), r.all, ChildrenOf(o.id), m);
      StepCancels(p, i, m, cfg);
      SameFailures(failed', failed + {o.id}, all0, PassStep(p, i, m, cfg).all, m);
    } else {
      StepKeeps(p, i, m, cfg);
      SameFailures(failed', failed, all0, PassStep(p, i, m, cfg).all, m);
    }
  }

  lemma SameFailures(f: set<nat>, g: set<nat>, all0: seq<Order>, all: seq<Order>, m: Snapshot)
    requires Failures(f, all0, all, m) && Failures(g, all0, all, m)
    ensures f == g
  {
  }

  lemma StepCancels(p: Pass, i: nat, m: Snapshot, cfg: Config)
    requires i < |p.pending|
    requires var s := OrderStep(p.pending[i], p.all, p.ledger, m, cfg); FailsAsMain(s) && s.order.id == p.pending[i].id
    ensures var s := OrderStep(p.pending[i], p.all, p.ledger, m, cfg);
            var t := AfterTurn(p, i, s);
            PassStep(p, i, m, cfg).all == CancelWhere(Lists(t.all, t.pending), ChildrenOf(p.pending[i].id), 0).all
  {
    hide OrderStep, CancelWhere, Activate;
  }

  lemma StepKeeps(p: Pass, i: nat, m: Snapshot, cfg: Config)
    requires i < |p.pending| && !FailsAsMain(OrderStep(p.pending[i], p.all, p.ledger, m, cfg))
    ensures PassStep(p, i, m, cfg).all == OrderStep(p.pending[i], p.all, p.ledger, m, cfg).all
  {
    hide OrderStep, CancelWhere, Activate;
  }

  lemma {:induction false} CauseRun(all0: seq<Order>, p: Pass, i: nat, m: Snapshot, cfg: Config, failed: set<nat>)
    returns (failed': set<nat>)
    requires i <= |p.pending| && LoosePass(p, i, failed) && Advances(all0, p.all) && Failures(failed, all0, p.all, m)
    requires OnlyChildren(all0, p.all, failed)
    ensures var q := RunPass(p, i, m, cfg);
            && LoosePass(q, |q.pending|, failed') && Failures(failed', all0, q.all, m) && OnlyChildren(all0, q.all, failed')
    decreases |p.pending| - i
  {
    hide LoosePass, PassStep, Failures, Advances, OnlyChildren;
    if i < |p.pending| {
      failed' := CauseStep(all0, p, i, m, cfg, failed);
      failed' := CauseRun(all0, PassStep(p, i, m, cfg), i + 1, m, cfg, failed');
    } else {
      failed' := failed;
    }
  }

  /** A member of the order's group has completed in this call. */
  ghost predicate GroupDone(all0: seq<Order>, all: seq<Order>, group: nat) {
    group != 0 && exists j :: 0 <= j < |all0| == |all| && JustCompleted(all0[j], all[j]) && all[j].terms.ocoGroupId == group
  }

  lemma NothingCancelled(all: seq<Order>)
    ensures OnlyChildren(all, all, {})
  {
  }

  /** The pass of a call: what it leaves, who has failed, and which groups have completed. */
  lemma ProcessCauses(b: Broker, m: Snapshot) returns (p: Pass, failed: set<nat>)
    requires BookOk(b)
    ensures PassOk(p, |p.pending|) && LoosePass(p, |p.pending|, failed) && Failures(failed, b.all, p.all, m)
    ensures OnlyChildren(b.all, p.all, failed) && GroupsReal(b.all, p.all, p.groups) && Advances(b.all, p.all)
    ensures Process(b, m).all == if p.groups == [] then p.all else Sweep(p).all
    ensures InRange(p.still, |p.all|) && Left(p, Lists(Process(b, m).all, Process(b, m).pending))
  {
    hide LoosePass, RunPass, Sweep, Failures, Left, InRange, OnlyChildren, GroupsReal, PassOk, Advances;
    var p0 := Pass(b.all, b.pending, b.ledger, [], []);
    LooseOk(b);
    LooseStarts(b, m);
    PassStarts(b);
    NothingCancelled(b.all);
    GroupsStart(b.all);
    AdvancesReflexive(b.all);
    failed := CauseRun(b.all, p0, 0, m, b.config, {});
    GroupsRealRun(b.all, p0, 0, m, b.config);
    RunPassOk(p0, 0, m, b.config);
    p := RunPass(p0, 0, m, b.config);
    StillInRange(p, failed);
    SweepLeaves(p);
    NoSweep(p);
  }

  lemma SweptOnlyGroups(b: Broker, p: Pass, all: seq<Order>, k: nat, failed: set<nat>)
    requires PassOk(p, |p.pending|) && Advances(b.all, p.all) && |p.all| == |b.all| && k < |b.all| && b.all[k].Alive()
    requires OnlyChildren(b.all, p.all, failed) && GroupsReal(b.all, p.all, p.groups)
    requires all == (if p.groups == [] then p.all else Sweep(p).all) && k < |all| && all[k].status == Canceled
    ensures b.all[k].terms.parentId in failed || GroupDone(b.all, all, b.all[k].terms.ocoGroupId)
  {
    hide Sweep, PassOk, JustCompleted;
    AdvancesAt(b.all, p.all, k);
    if p.all[k].status != Canceled {
      SweepOk(p);
      var g := b.all[k].terms.ocoGroupId;
      var j :| 0 <= j < |p.all| && JustCompleted(b.all[j], p.all[j]) && p.all[j].terms.ocoGroupId == g;
      CompletedStays(b.all[j], p.all, all, p, j);
      assert JustCompleted(b.all[j], all[j]) && all[j].terms.ocoGroupId == g;
    }
  }

  lemma CompletedStays(o: Order, all: seq<Order>, r: seq<Order>, p: Pass, j: nat)
    requires CancelledIn(Lists(p.all, p.still), r, InGroups(p.groups)) && all == p.all && j < |all| && JustCompleted(o, all[j])
    ensures j < |r| && r[j] == all[j] && JustCompleted(o, r[j])
  {
  }

  /** A call cancels an order only if a member of its group has completed in the call, or its
      parent is a main order that the call has attempted and seen fail; and in both cases the
      order is not alive on return. */
  lemma CancelledOnlyIf(b: Broker, m: Snapshot, k: nat)
    requires BookOk(b) && k < |b.all| && b.all[k].Alive()
    ensures |Process(b, m).all| == |b.all|
    ensures var c, terms := Process(b, m), b.all[k].terms;
            && (c.all[k].status == Canceled ==>
                  GroupDone(b.all, c.all, terms.ocoGroupId) || FailedMain(b.all, c.all, m, terms.parentId))
            && (GroupDone(b.all, c.all, terms.ocoGroupId) || FailedMain(b.all, c.all, m, terms.parentId) ==> !c.all[k].Alive())
  {
    hide Process, LoosePass, Failures, Left, InRange, BookOk, FailedMain, OnlyChildren, JustCompleted, GroupDone;
    LooseOk(b);
    var p, failed := ProcessCauses(b, m);
    var c := Process(b, m);
    var r := Lists(c.all, c.pending);
    FailedStays(b, p, r, m, failed, b.all[k].terms.parentId);
    if c.all[k].status == Canceled {
      SweptOnlyGroups(b, p, c.all, k, failed);
    }
    if GroupDone(b.all, c.all, b.all[k].terms.ocoGroupId) {
      GroupDead(b, m, k);
    }
    if b.all[k].terms.parentId in failed {
      AdvancesAt(b.all, p.all, k);
      StillDead(p, r, failed, k, b.all[k]);
    }
  }

  lemma LooseOk(b: Broker)
    requires BookOk(b)
    ensures LooseBook(b)
  {
  }

  lemma GroupDead(b: Broker, m: Snapshot, k: nat)
    requires BookOk(b) && k < |b.all| && GroupDone(b.all, Process(b, m).all, b.all[k].terms.ocoGroupId)
    ensures |Process(b, m).all| == |b.all| && !Process(b, m).all[k].Alive()
  {
    hide Process, BookOk, Advances;
    ProcessOk(b, m);
    var all := Process(b, m).all;
    var j :| 0 <= j < |b.all| == |all| && JustCompleted(b.all[j], all[j]) && all[j].terms.ocoGroupId == b.all[k].terms.ocoGroupId;
    AdvancesAt(b.all, all, j);
    AdvancesAt(b.all, all, k);
    OcoCall(b, m, j);
  }

  /** A child of a failed main order is not alive in the book, even if it has been carried over. */
  lemma StillDead(p: Pass, r: Lists, failed: set<nat>, k: nat, o: Order)
    requires LoosePass(p, |p.pending|, failed) && InRange(p.still, |p.all|) && Left(p, r) && k < |p.all| && k < |r.all|
    requires o.terms.parentId in failed && p.all[k].terms == o.terms
    ensures !r.all[k].Alive()
  {
    hide DeadBehind, Before, Increasing, Copies;
    if p.all[k].Alive() {
      var a := AliveInStill(p, failed, k);
      StaleIsDead(p.still[a], p.all, failed, k);
    }
  }

  lemma StaleIsDead(x: Order, all: seq<Order>, failed: set<nat>, k: nat)
    requires k < |all| && x.id == k + 1 && Carried(x, all, failed) && all[k].terms.parentId in failed
    ensures !all[k].Alive()
  {
  }
}
