/**
  The end-to-end walk through the subscription lifecycle: subscribe, a refused
  second subscribe, a refused downgrade, an accepted upgrade, a cancel, and
  the resulting history.
 */
module SubscriptionScenario {
  import opened Wrappers
  import opened SubscriptionModels
  import opened SubscriptionViews

  const Alice: UserId := 1
  const Basic: PlanId := 1
  const Cheap: PlanId := 2
  const Premium: PlanId := 3

  /** Three offered plans: 10.00 for 30 days, 5.00 and 20.00. */
  function Plans(): Catalog {
    map[Basic := Plan("Basic", 1000, 30, true),
        Cheap := Plan("Cheap", 500, 30, true),
        Premium := Plan("Premium", 2000, 30, true)]
  }

  const Month: int := 30 * SecondsPerDay

  /** The ledger before the walk. */
  const NoRecords: Ledger := []

  /** The 10.00 record, opened at `t0`, and as the move at `t0 + 3` closes it. */
  function BasicOpen(t0: Time): Record { Record(Alice, Basic, t0, t0 + Month, true) }
  function BasicClosed(t0: Time): Record { Record(Alice, Basic, t0, t0 + 3, false) }

  /** The 20.00 record, opened at `t0 + 3`, and as the cancel at `t0 + 4` closes it. */
  function PremiumOpen(t0: Time): Record { Record(Alice, Premium, t0 + 3, t0 + 3 + Month, true) }
  function PremiumClosed(t0: Time): Record { Record(Alice, Premium, t0 + 3, t0 + 4, false) }

  /** The ledger after each accepted step. */
  function AfterSubscribe(t0: Time): Ledger {
    [BasicOpen(t0)]
  }

  function AfterUpgrade(t0: Time): Ledger {
    [BasicClosed(t0), PremiumOpen(t0)]
  }

  function AfterCancel(t0: Time): Ledger {
    [BasicClosed(t0), PremiumClosed(t0)]
  }

  lemma SubscribeStep(t0: Time)
    ensures Subscribe(Plans(), NoRecords, Alice, Basic, t0) == Success(Step(AfterSubscribe(t0), AfterSubscribe(t0)[0]))
    ensures GetActive(AfterSubscribe(t0), Alice) == Some(AfterSubscribe(t0)[0])
  {
    assert Plans()[Basic] == Plan("Basic", 1000, 30, true);
    assert FirstActive([], Alice) == None;
    assert AfterSubscribe(t0)[..0] == [];
    var rec := NewRecord(Alice, Basic, DaysAfter(t0, 30), Some(t0), Some(true), t0);
    assert rec == AfterSubscribe(t0)[0];
    assert [] + [rec] == AfterSubscribe(t0);
  }

  lemma RefusedSteps(t0: Time)
    ensures PlansExist(Plans(), AfterSubscribe(t0))
    ensures Subscribe(Plans(), AfterSubscribe(t0), Alice, Basic, t0 + 1) == Failure(AlreadySubscribed)
    ensures Upgrade(Plans(), AfterSubscribe(t0), Alice, Cheap, t0 + 2, t0 + 2) == Failure(InvalidUpgrade)
  {
  }

  lemma UpgradeStep(t0: Time)
    ensures Upgrade(Plans(), AfterSubscribe(t0), Alice, Premium, t0 + 3, t0 + 3)
            == Success(Step(AfterUpgrade(t0), AfterUpgrade(t0)[1]))
    ensures GetActive(AfterUpgrade(t0), Alice) == Some(AfterUpgrade(t0)[1])
  {
    var l := AfterSubscribe(t0);
    assert l[..0] == [];
    assert FirstActive(l, Alice) == Some(0);
    var l2 := AfterUpgrade(t0);
    assert l2[..1] == [l2[0]];
    assert l2[..1][..0] == [];
    assert FirstActive(l2[..1], Alice) == None;
    assert FirstActive(l2, Alice) == Some(1);
    assert Plans()[Premium] == Plan("Premium", 2000, 30, true);
    assert Plans()[Basic] == Plan("Basic", 1000, 30, true);
    var kept := l[0 := Closed(l[0], t0 + 3)];
    var rec := NewRecord(Alice, Premium, DaysAfter(t0 + 3, 30), Some(t0 + 3), Some(true), t0 + 3);
    assert kept + [rec] == l2;
  }

  lemma CancelStep(t0: Time)
    ensures Cancel(AfterUpgrade(t0), Alice, t0 + 4) == Success(Step(AfterCancel(t0), AfterCancel(t0)[1]))
    ensures GetActive(AfterCancel(t0), Alice) == None
  {
    var l2 := AfterUpgrade(t0);
    assert l2[..1] == [l2[0]];
    assert l2[..1][..0] == [];
    assert FirstActive(l2[..1], Alice) == None;
    assert FirstActive(l2, Alice) == Some(1);
    var l3 := AfterCancel(t0);
    assert l2[1 := Closed(l2[1], t0 + 4)] == l3;
    assert !IsActiveOf(l3[0], Alice) && !IsActiveOf(l3[1], Alice);
  }

  /** A ledger holding only `u`'s records is its own selection for `u`. */
  lemma {:induction false} OwnedByAllMine(l: Ledger, u: UserId)
    requires forall i :: 0 <= i < |l| ==> l[i].user == u
    ensures OwnedBy(l, u) == l
  {
    if l != [] {
      var last := |l| - 1;
      var front := l[..last];
      assert forall i :: 0 <= i < |front| ==> front[i] == l[i];
      OwnedByAllMine(front, u);
      assert OwnedBy(l, u) == OwnedBy(front, u) + [l[last]];
      assert l == front + [l[last]];
    }
  }

  lemma FinalOrder(t0: Time)
    ensures OrderNewestFirst(AfterCancel(t0)) == [AfterCancel(t0)[1], AfterCancel(t0)[0]]
  {
  }

  lemma FinalHistory(t0: Time)
    ensures History(AfterCancel(t0), Alice) == [AfterCancel(t0)[1], AfterCancel(t0)[0]]
  {
    OwnedByAllMine(AfterCancel(t0), Alice);
    FinalOrder(t0);
  }

  /** Subscribe to the 10.00 plan; a second subscribe is refused; a move to
      the 5.00 plan is refused; a move to the 20.00 plan closes the first
      record and opens a second; a cancel closes that; the history lists the
      20.00 record first. The ledgers each step yields are spelled out in
      `AfterSubscribe`, `AfterUpgrade` and `AfterCancel`. */
  lemma Lifecycle(t0: Time)
    ensures Subscribe(Plans(), NoRecords, Alice, Basic, t0) == Success(Step(AfterSubscribe(t0), BasicOpen(t0)))
    ensures Subscribe(Plans(), AfterSubscribe(t0), Alice, Basic, t0 + 1) == Failure(AlreadySubscribed)
    ensures PlansExist(Plans(), AfterSubscribe(t0))
    ensures Upgrade(Plans(), AfterSubscribe(t0), Alice, Cheap, t0 + 2, t0 + 2) == Failure(InvalidUpgrade)
    ensures GetActive(AfterSubscribe(t0), Alice) == Some(BasicOpen(t0))
    ensures Upgrade(Plans(), AfterSubscribe(t0), Alice, Premium, t0 + 3, t0 + 3)
            == Success(Step(AfterUpgrade(t0), PremiumOpen(t0)))
    ensures GetActive(AfterUpgrade(t0), Alice) == Some(PremiumOpen(t0))
    ensures Cancel(AfterUpgrade(t0), Alice, t0 + 4) == Success(Step(AfterCancel(t0), PremiumClosed(t0)))
    ensures GetActive(AfterCancel(t0), Alice) == None
    ensures History(AfterCancel(t0), Alice) == [PremiumClosed(t0), BasicClosed(t0)]
  {
    SubscribeStep(t0);
    RefusedSteps(t0);
    UpgradeStep(t0);
    CancelStep(t0);
    FinalHistory(t0);
  }
}
