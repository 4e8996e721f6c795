// Where the shop can come to rest, and what "ALL ORDERS SERVED" is worth.
module ShopStuck {
  import opened Counting
  import opened Shop
  import opened ShopLocks
  import opened ShopOrders
  import opened ShopSteps
  import opened ShopCounts
  import opened ShopWake
  import opened ShopRuns

  // A cook going round lines 572-574 with nothing to claim.
  predicate Polling(s: State, pc: CookPc) {
    (pc.SpinNext? || pc.SpinMore? || pc.BodyNext? || pc.BodyMore?) && s.next >= s.ogc && !s.noMore
  }

  predicate Idle(s: State, l: Label) {
    l.Cook? && l.i < |s.cooks| && Polling(s, s.cooks[l.i])
  }

  // Nothing is left to do but polling, apart from spurious wake-ups.
  ghost predicate Rest(c: Config, s: State) {
    forall l :: Can(c, s, l) ==> Spurious(l) || Idle(s, l)
  }

  lemma MgrRests(c: Config, s: State)
    requires Rest(c, s)
    ensures !MgrCan(c, s)
  {
    assert Can(c, s, Mgr) ==> Spurious(Mgr) || Idle(s, Mgr);
  }

  lemma CookRests(c: Config, s: State, i: nat)
    requires Rest(c, s) && i < |s.cooks|
    ensures CookCan(s, i) ==> Polling(s, s.cooks[i])
  {
    assert Can(c, s, Cook(i)) ==> Spurious(Cook(i)) || Idle(s, Cook(i));
  }

  lemma DelRests(c: Config, s: State, i: nat)
    requires Rest(c, s) && i < |s.dels|
    ensures !DelCan(s, i)
  {
    assert Can(c, s, Del(i)) ==> Spurious(Del(i)) || Idle(s, Del(i));
  }

  // ---------------------------------------------------------------- every lock is free

  lemma TallyFree(c: Config, s: State)
    requires Shape(c, s) && DelUnits(s) && BagsInv(s) && Rest(c, s)
    ensures s.locks.tally > 0 && s.locks.moto > 0
  {
    forall i: nat | i < |s.dels| ensures !DelTally(s.dels[i]) {
      DelRests(c, s, i);
    }
    CountBounds(DelTally, s.dels);
    assert s.locks.tally > 0;
    forall i: nat | i < |s.dels| ensures !DelMoto(s.dels[i]) {
      DelRests(c, s, i);
      assert BagOK(s.dels[i]);
    }
    CountBounds(DelMoto, s.dels);
  }

  lemma StatusFree(c: Config, s: State)
    requires Shape(c, s) && SharedUnits(s) && TableInv(c, s) && Rest(c, s)
    ensures s.locks.status > 0
  {
    assert forall i: nat :: i < |s.cooks| && CookHolds(s.cooks[i]) ==> s.cooks[i].cur < |s.table|;
    assert s.ogc <= |s.table|;
    hide TableInv, Shape;
    forall i: nat | i < |s.cooks| ensures !CookStatus(s.cooks[i]) {
      CookRests(c, s, i);
    }
    forall i: nat | i < |s.dels| ensures !DelStatus(s.dels[i]) {
      DelRests(c, s, i);
    }
    CountBounds(CookStatus, s.cooks);
    CountBounds(DelStatus, s.dels);
  }

  lemma DeliveryFree(c: Config, s: State)
    requires DelUnits(s) && DelWakeInv(s) && Rest(c, s)
    ensures s.locks.delivery > 0 && s.locks.delQueue > 0 && !MgrDelivery(s.mgr)
  {
    MgrRests(c, s);
    forall i: nat | i < |s.dels| ensures !DelQueue(s.dels[i]) {
      DelRests(c, s, i);
      assert DelFlow(s.deliv, s.noMore, s.dels[i].pc);
    }
    CountBounds(DelQueue, s.dels);
    assert s.locks.delQueue > 0;
    forall i: nat | i < |s.dels| ensures !DelDelivery(s.dels[i]) {
      DelRests(c, s, i);
    }
    CountBounds(DelDelivery, s.dels);
  }

  lemma ManagerRests(c: Config, s: State)
    requires SharedUnits(s) && TableInv(c, s) && PhaseInv(c, s) && MgrWakeInv(s) && Rest(c, s)
    requires s.locks.delivery > 0 && s.locks.delQueue > 0
    ensures !MgrConsume(s.mgr) && !Reading(s.mgr)
    ensures s.mgr == MgrAsleep || s.mgr == MgrReturned || s.mgr == ConsumeLock || s.mgr == MgrRelock
  {
    MgrRests(c, s);
    QueueUnits(c, s);
    assert s.ogc <= |s.table|;
    assert s.mgr == WriteOrder ==> |s.table| < |c.orders|;
    hide SharedUnits, PhaseInv, TableInv, Rest;
  }

  lemma ConsumeFree(c: Config, s: State)
    requires SharedUnits(s) && TableInv(c, s) && Rest(c, s) && !MgrConsume(s.mgr)
    ensures s.locks.consume > 0
  {
    assert forall i: nat :: i < |s.cooks| && CookHolds(s.cooks[i]) ==> s.cooks[i].cur < |s.table|;
    hide TableInv, MgrConsume;
    forall i: nat | i < |s.cooks| ensures !CookConsume(s.cooks[i]) {
      CookRests(c, s, i);
    }
    CountBounds(CookConsume, s.cooks);
  }

  lemma OvenFree(c: Config, s: State)
    requires CookUnits(s) && TableInv(c, s) && Rest(c, s) && s.locks.status > 0
    ensures s.locks.exit > 0 && s.locks.entrance > 0 && s.locks.oven > 0 && s.locks.shovel > 0
  {
    assert forall i: nat :: i < |s.cooks| && CookHolds(s.cooks[i]) ==> s.cooks[i].cur < |s.table|;
    hide TableInv;
    forall i: nat | i < |s.cooks| ensures !CookExit(s.cooks[i]) && !CookEntrance(s.cooks[i]) {
      CookRests(c, s, i);
    }
    CountBounds(CookExit, s.cooks);
    CountBounds(CookEntrance, s.cooks);
    assert s.locks.entrance > 0;
    forall i: nat | i < |s.cooks| ensures !CookOven(s.cooks[i]) {
      CookRests(c, s, i);
    }
    CountBounds(CookOven, s.cooks);
    forall i: nat | i < |s.cooks| ensures !CookShovel(s.cooks[i]) {
      CookRests(c, s, i);
    }
    CountBounds(CookShovel, s.cooks);
  }

  // ---------------------------------------------------------------- where everybody is

  predicate CookResting(s: State, pc: CookPc) {
    && (pc == CookReturned || (pc == FullLock && s.locks.full <= 0) || Polling(s, pc))
    && !CookHolds(pc) && pc != SignalConsume
  }

  predicate DelResting(d: Deliverer) {
    (d.pc == DelAsleep || d.pc == DelReturned) && !DelBusy(d) && !DelTallied(d)
  }

  predicate AtRest(s: State) {
    && (s.mgr == MgrAsleep || s.mgr == MgrReturned)
    && (forall i: nat :: i < |s.cooks| ==> CookResting(s, s.cooks[i]))
    && (forall i: nat :: i < |s.dels| ==> DelResting(s.dels[i]))
  }

  lemma CookAtRest(c: Config, s: State, i: nat)
    requires TableInv(c, s) && Rest(c, s) && i < |s.cooks|
    requires s.locks.status > 0 && s.locks.consume > 0
    requires s.locks.exit > 0 && s.locks.entrance > 0 && s.locks.oven > 0 && s.locks.shovel > 0
    ensures CookResting(s, s.cooks[i])
  {
    assert CookHolds(s.cooks[i]) ==> s.cooks[i].cur < |s.table|;
    hide TableInv;
    CookRests(c, s, i);
  }

  lemma AllAtRest(c: Config, s: State)
    requires Inv(c, s) && Rest(c, s)
    ensures AtRest(s)
  {
    assert CookUnits(s) && DelUnits(s) && SharedUnits(s) && TableInv(c, s) && BagsInv(s) && PhaseInv(c, s)
      && DelWakeInv(s) && MgrWakeInv(s);
    hide Inv, CookUnits, DelUnits, SharedUnits, TableInv, BagsInv, PhaseInv, DelWakeInv, MgrWakeInv, MgrConsume,
      CookHolds, Polling, Rest;
    TallyFree(c, s);
    StatusFree(c, s);
    DeliveryFree(c, s);
    ManagerRests(c, s);
    ConsumeFree(c, s);
    OvenFree(c, s);
    MgrRests(c, s);
    forall i: nat | i < |s.cooks| ensures CookResting(s, s.cooks[i]) {
      CookAtRest(c, s, i);
    }
    forall i: nat | i < |s.dels| ensures DelResting(s.dels[i]) {
      DelRests(c, s, i);
      DelAtRest(s, i);
    }
  }

  lemma DelAtRest(s: State, i: nat)
    requires i < |s.dels| && !DelCan(s, i) && DelWakeInv(s) && BagsInv(s)
    requires s.locks.tally > 0 && s.locks.moto > 0 && s.locks.status > 0 && s.locks.delivery > 0 && s.locks.delQueue > 0
    requires s.ogc <= |s.table|
    ensures DelResting(s.dels[i])
  {
    assert BagOK(s.dels[i]) && DelFlow(s.deliv, s.noMore, s.dels[i].pc);
    hide DelWakeInv, BagsInv;
  }

  // ---------------------------------------------------------------- everything is delivered

  // With the manager gone and nothing on its way, the orders delivered are the orders received.
  lemma AllDelivered(c: Config, s: State)
    requires Inv(c, s) && s.mgr == MgrReturned && s.deliv == []
    requires forall i: nat :: i < |s.dels| ==> !DelBusy(s.dels[i]) && !DelTallied(s.dels[i])
    ensures multiset(s.delivered) == multiset(c.orders) && s.ready == []
    ensures Sum(s.pCounts) == |c.orders|
  {
    CountBounds(DelBusy, s.dels);
    CountBounds(DelTallied, s.dels);
    assert CountInv(s) && PhaseInv(c, s) && Conserved(c, s);
    assert |s.delivered| == s.next == |c.orders| && s.ready == [] && Count(CookHolds, s.cooks) == 0;
    CountBounds(CookHolds, s.cooks);
    assert c.orders[..s.next] == c.orders;
    hide Inv, CountInv, PhaseInv, Conserved, DelBusy, Count, CookHolds, Sum;
    forall x ensures multiset(s.delivered)[x] == multiset(c.orders)[x] {
      NoCookHolds(c, s.cooks, x);
      assert DelsHave(s.dels, x) == 0 by { NobodyHas(s.dels, x); }
      assert Conserved(c, s);
      Partition(c, s, x);
    }
  }

  lemma NobodyHas(dels: seq<Deliverer>, x: int)
    requires forall i: nat :: i < |dels| ==> !DelBusy(dels[i])
    ensures DelsHave(dels, x) == 0
  {
    NoDelHolds(dels, x);
  }

  lemma Partition(c: Config, s: State, x: int)
    requires Conserved(c, s)
    ensures Times(c.orders[..s.next], x) == CooksHave(c, s.cooks, x) + Times(s.ready, x) + One(MgrHas(s.mgr, x))
      + Times(s.deliv, x) + DelsHave(s.dels, x) + Times(s.delivered, x)
  {
    assert Times(c.orders[..s.next], x) == Placed(c, s, x);
  }

  // ---------------------------------------------------------------- quiescence

  lemma Rests(s: State)
    requires AtRest(s)
    ensures forall i: nat :: i < |s.cooks| ==> CookResting(s, s.cooks[i])
    ensures forall i: nat :: i < |s.dels| ==> DelResting(s.dels[i])
  {
    hide CookResting, DelResting;
  }

  lemma FullPolls(s: State, pc: CookPc)
    requires CookResting(s, pc) && CookFull(pc)
    ensures s.next >= s.ogc && !s.noMore
  {
  }

  // The mutex a cook waits for at rest is held by one that polls.
  lemma SomebodyPolls(c: Config, s: State, i: nat)
    requires Inv(c, s) && AtRest(s) && i < |s.cooks| && s.cooks[i] != CookReturned
    ensures s.next >= s.ogc && !s.noMore
  {
    hide Inv, AtRest, CookUnits, CookFull, CookHolds;
    Rests(s);
    if s.cooks[i] == FullLock {
      Parts(c, s);
      CountBounds(CookFull, s.cooks);
      FullUnits(s);
      var j: nat :| j < |s.cooks| && CookFull(s.cooks[j]);
      FullPolls(s, s.cooks[j]);
    }
  }

  lemma FullUnits(s: State)
    requires CookUnits(s)
    ensures s.locks.full + Count(CookFull, s.cooks) == 1
  {
  }

  lemma ManagerGone(c: Config, s: State)
    requires Inv(c, s) && AtRest(s)
    ensures s.mgr == MgrReturned
    ensures forall i: nat :: i < |s.cooks| ==> s.cooks[i] == CookReturned
  {
    assert Shape(c, s) && CountInv(s) && PhaseInv(c, s) && MgrWakeInv(s) && TableInv(c, s);
    assert CookFlow(s.noMore, s.cooks[0]) && !Reading(s.mgr);
    assert forall i: nat :: i < |s.cooks| ==> CookResting(s, s.cooks[i]);
    assert forall i: nat :: i < |s.dels| ==> DelResting(s.dels[i]);
    if s.mgr == MgrAsleep {
      SomebodyPolls(c, s, 0);
      CountBounds(CookHolds, s.cooks);
      CountBounds(DelBusy, s.dels);
      hide Inv, AtRest, Polling, CookHolds, DelBusy, TableInv, Sum;
      assert false;
    }
    hide CookResting, DelResting, Shape, CountInv, PhaseInv, MgrWakeInv, TableInv;
    assert s.noMore;
    forall i: nat | i < |s.cooks| ensures s.cooks[i] == CookReturned {
      if s.cooks[i] != CookReturned { SomebodyPolls(c, s, i); }
    }
  }

  // A run that has come to rest has delivered every order. All that may be left are
  // deliverers asleep on can_deliver; main reports success if and only if there are none,
  // and is otherwise stuck joining one of them.
  lemma Quiescence(c: Config, run: seq<State>, ls: seq<Label>)
    requires IsRun(c, run, ls) && Rest(c, run[|ls|])
    ensures var s := run[|ls|];
      && multiset(s.delivered) == multiset(c.orders) && Sum(s.pCounts) == |c.orders|
      && s.ready == [] && s.deliv == [] && s.mgr == MgrReturned
      && (forall i: nat :: i < |s.cooks| ==> s.cooks[i] == CookReturned)
      && (forall i: nat :: i < |s.dels| ==> s.dels[i].pc == DelAsleep || s.dels[i].pc == DelReturned)
      && (s.main == Served <==> forall i: nat :: i < |s.dels| ==> s.dels[i].pc != DelAsleep)
      && (s.main != Served ==> s.main.JoinDeliverer? && s.main.i < |s.dels| && s.dels[s.main.i].pc == DelAsleep)
  {
    hide Next, Init, Inv, Rest, AtRest, DelBusy, DelTallied, Sum;
    RunSafe(c, run, ls, |ls|);
    var s := run[|ls|];
    AllAtRest(c, s);
    ManagerGone(c, s);
    DeliveryEmpty(c, s);
    Rests(s);
    AllDelivered(c, s);
    MainRests(c, s);
    Parts(c, s);
  }

  lemma DeliveryEmpty(c: Config, s: State)
    requires Inv(c, s) && AtRest(s) && s.mgr == MgrReturned
    ensures s.deliv == []
  {
    assert Shape(c, s) && DelWakeInv(s);
    assert DelResting(s.dels[0]) && DelFlow(s.deliv, s.noMore, s.dels[0].pc);
    hide Inv, AtRest, Shape;
  }

  lemma MainRests(c: Config, s: State)
    requires Inv(c, s) && Rest(c, s) && s.mgr == MgrReturned
    requires forall i: nat :: i < |s.cooks| ==> s.cooks[i] == CookReturned
    requires forall i: nat :: i < |s.dels| ==> s.dels[i].pc == DelAsleep || s.dels[i].pc == DelReturned
    ensures s.main == Served
      || (s.main.JoinDeliverer? && s.main.i < |s.dels| && s.dels[s.main.i].pc == DelAsleep)
  {
    assert Can(c, s, Main) ==> Spurious(Main) || Idle(s, Main);
    hide Inv, Rest;
  }

  // ---------------------------------------------------------------- the message is honest

  // "ALL ORDERS SERVED" is sent only when every order received has been delivered exactly
  // once, and then the p_counts add up to the number of orders.
  lemma ServedAll(c: Config, run: seq<State>, ls: seq<Label>, n: nat)
    requires IsRun(c, run, ls) && n <= |ls| && (run[n].main == SendServed || run[n].main == Served)
    ensures multiset(run[n].delivered) == multiset(c.orders) && Sum(run[n].pCounts) == |c.orders|
    ensures forall k: nat :: k < |c.orders| ==> multiset(run[n].delivered)[c.orders[k]] == 1
  {
    hide Next, Init, Inv, TableInv, OrderInv, Conserved, MgrWakeInv, CookUnits, DelUnits, SharedUnits, Sum;
    RunSafe(c, run, ls, n);
    var s := run[n];
    Parts(c, s);
    assert s.dels[0].pc == DelReturned && DelFlow(s.deliv, s.noMore, s.dels[0].pc);
    AllDelivered(c, s);
    forall k: nat | k < |c.orders| ensures multiset(s.delivered)[c.orders[k]] == 1 {
      AtMostOnce(c.orders, k);
    }
  }

  // ---------------------------------------------------------------- exactly when main gets there

  // Past the test on line 643 when no_more_orders was still false, and not coming back.
  predicate Caught(pc: DelPc) {
    pc.DeliverWait? || pc.DelAsleep?
  }

  lemma CaughtStays(c: Config, s: State, l: Label, s': State, i: nat)
    requires Next(c, s, l, s') && s.noMore && s.mgr == MgrReturned && i < |s.dels|
    ensures s'.noMore && s'.mgr == MgrReturned && |s'.dels| == |s.dels|
    ensures Caught(s'.dels[i].pc) <==> Caught(s.dels[i].pc) && l != SpuriousDel(i)
  {
    hide GoodConfig, CookNext, CookLocks, CookTable, DelLocks, DelBag, Found, FindTid;
  }

  // Deliverer i has woken up spuriously between the k-th and the n-th step.
  predicate Rescued(ls: seq<Label>, k: nat, n: nat, i: nat)
    requires n <= |ls|
  {
    exists j: nat :: k < j < n && ls[j] == SpuriousDel(i)
  }

  lemma {:induction false} CaughtForGood(c: Config, run: seq<State>, ls: seq<Label>, k: nat, n: nat, i: nat)
    requires IsRun(c, run, ls) && k < n <= |ls| && ls[k] == Mgr && run[k].mgr == SetNoMore && i < |c.tids|
    ensures run[n].noMore && run[n].mgr == MgrReturned && |run[k].dels| == |run[n].dels| == |c.tids|
    ensures Caught(run[n].dels[i].pc) <==> Caught(run[k].dels[i].pc) && !Rescued(ls, k, n, i)
  {
    assert Next(c, run[n - 1], ls[n - 1], run[n - 1 + 1]);
    hide IsRun, Next, Caught;
    if n - 1 == k {
      ClosingKeeps(c, run[k], run[n]);
    } else {
      CaughtForGood(c, run, ls, k, n - 1, i);
      RescuedMore(ls, k, n - 1, i);
      hide Rescued;
      CaughtStays(c, run[n - 1], ls[n - 1], run[n], i);
    }
  }

  lemma ClosingKeeps(c: Config, s: State, s': State)
    requires Next(c, s, Mgr, s') && s.mgr == SetNoMore
    ensures s'.noMore && s'.mgr == MgrReturned && s'.dels == s.dels && |s.dels| == |c.tids|
  {
    hide MgrLocks, WakeAll, GoodConfig;
  }

  lemma RescuedMore(ls: seq<Label>, k: nat, n: nat, i: nat)
    requires k < n < |ls|
    ensures Rescued(ls, k, n + 1, i) <==> Rescued(ls, k, n, i) || ls[n] == SpuriousDel(i)
  {
  }

  // no_more_orders is set by one step of the manager.
  lemma {:induction false} ClosingStep(c: Config, run: seq<State>, ls: seq<Label>, n: nat) returns (k: nat)
    requires IsRun(c, run, ls) && n <= |ls| && run[n].mgr == MgrReturned
    ensures k < n && ls[k] == Mgr && run[k].mgr == SetNoMore
  {
    NotAtTheStart(c, run, ls, n);
    assert Next(c, run[n - 1], ls[n - 1], run[n - 1 + 1]);
    hide *;
    if run[n - 1].mgr == MgrReturned {
      k := ClosingStep(c, run, ls, n - 1);
    } else {
      k := n - 1;
      OnlyThenReturns(c, run[k], ls[k], run[n]);
    }
  }

  lemma NotAtTheStart(c: Config, run: seq<State>, ls: seq<Label>, n: nat)
    requires IsRun(c, run, ls) && n <= |ls| && run[n].mgr == MgrReturned
    ensures n > 0 && |run| == |ls| + 1
  {
    assert Init(c, run[0]);
  }

  lemma OnlyThenReturns(c: Config, s: State, l: Label, s': State)
    requires Next(c, s, l, s') && s.mgr != MgrReturned && s'.mgr == MgrReturned
    ensures l == Mgr && s.mgr == SetNoMore
  {
    hide GoodConfig, CookNext, CookLocks, CookTable, DelNext, DelLocks, DelBag, Found, FindTid, FindOrder, MgrLocks,
      WakeAll;
  }

  // A run at rest has served main if and only if every deliverer that had gone to sleep,
  // or was about to, when the manager set no_more_orders has woken up spuriously since.
  lemma ServedUnlessCaught(c: Config, run: seq<State>, ls: seq<Label>) returns (k: nat)
    requires IsRun(c, run, ls) && Rest(c, run[|ls|])
    ensures k < |ls| && ls[k] == Mgr && run[k].mgr == SetNoMore
    ensures run[|ls|].main == Served <==>
      forall i: nat :: i < |run[k].dels| && Caught(run[k].dels[i].pc) ==> Rescued(ls, k, |ls|, i)
  {
    Quiescence(c, run, ls);
    k := ClosingStep(c, run, ls, |ls|);
    DelsCounted(c, run, ls);
    CaughtForGood(c, run, ls, k, |ls|, 0);
    forall i: nat | i < |c.tids|
      ensures |run[|ls|].dels| == |run[k].dels| == |c.tids|
      ensures Caught(run[|ls|].dels[i].pc) <==> Caught(run[k].dels[i].pc) && !Rescued(ls, k, |ls|, i)
    {
      CaughtForGood(c, run, ls, k, |ls|, i);
    }
    hide IsRun, Rest, Sum, Rescued;
  }

  lemma DelsCounted(c: Config, run: seq<State>, ls: seq<Label>)
    requires IsRun(c, run, ls)
    ensures |c.tids| >= 1
  {
    assert Init(c, run[0]);
  }

  // In particular, nobody caught means that main is served, whatever wakes up when; and
  // while no deliverer wakes up spuriously after that step, only then.
  lemma ServedIfNobodyCaught(c: Config, run: seq<State>, ls: seq<Label>) returns (k: nat)
    requires IsRun(c, run, ls) && Rest(c, run[|ls|])
    ensures k < |ls| && ls[k] == Mgr && run[k].mgr == SetNoMore
    ensures (forall i: nat :: i < |run[k].dels| ==> !Caught(run[k].dels[i].pc)) ==> run[|ls|].main == Served
    ensures (forall j: nat :: k < j < |ls| ==> !ls[j].SpuriousDel?) ==>
      (run[|ls|].main == Served <==> forall i: nat :: i < |run[k].dels| ==> !Caught(run[k].dels[i].pc))
  {
    k := ServedUnlessCaught(c, run, ls);
    hide IsRun, Rest, Caught;
  }
}
