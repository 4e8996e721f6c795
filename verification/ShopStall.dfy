// The last broadcast goes to cond_for_new_order, on which nobody waits: whatever is
// ordered, a session may end with every order delivered and main waiting for ever for a
// sleeping deliverer.
module ShopStall {
  import opened Shop
  import opened ShopLocks
  import opened ShopOrders
  import opened ShopCounts
  import opened ShopWake
  import opened ShopRuns
  import opened ShopStuck
  import opened ShopTermination

  // ---------------------------------------------------------------- the manager is slow

  // The manager is about to set no_more_orders.
  predicate Closing(s: State, l: Label) {
    l == Mgr && s.mgr == SetNoMore
  }

  // Nothing is left to do but that, apart from polling and spurious wake-ups.
  ghost predicate Waiting(c: Config, s: State) {
    forall l :: Can(c, s, l) ==> Spurious(l) || Idle(s, l) || Closing(s, l)
  }

  // The manager as if it and main had returned, for what is known of threads at rest.
  function Closed(s: State): State {
    s.(mgr := MgrReturned, main := Served)
  }

  lemma ClosedRests(c: Config, s: State)
    requires Waiting(c, s)
    ensures Rest(c, Closed(s))
  {
    forall l | Can(c, Closed(s), l) ensures Spurious(l) || Idle(Closed(s), l) {
      assert l.Cook? || l.Del? || l.SpuriousDel?;
      assert Can(c, s, l);
    }
  }

  lemma ClosedKeeps(c: Config, s: State)
    requires Inv(c, s) && s.mgr == SetNoMore
    ensures Shape(c, Closed(s)) && DelUnits(Closed(s)) && SharedUnits(Closed(s)) && BagsInv(Closed(s))
    ensures TableInv(c, Closed(s)) && DelWakeInv(Closed(s))
    ensures !s.noMore && s.ogc <= |s.table|
  {
    assert DelUnits(s) && SharedUnits(s) && BagsInv(s) && TableInv(c, s) && DelWakeInv(s) && PhaseInv(c, s);
    hide Inv;
  }

  lemma OnlyClosingLeft(c: Config, s: State)
    requires Inv(c, s) && Waiting(c, s) && !s.noMore
    ensures s.mgr == SetNoMore
  {
    assert PhaseInv(c, s);
    if s.mgr != SetNoMore {
      assert Rest(c, s);
      hide Waiting, Rest, Inv, AtRest;
      AllAtRest(c, s);
      ManagerGone(c, s);
    }
  }

  lemma DelsAsleep(c: Config, s: State)
    requires Inv(c, s) && Waiting(c, s) && s.mgr == SetNoMore
    ensures forall i: nat :: i < |s.dels| ==> s.dels[i].pc == DelAsleep
  {
    var t := Closed(s);
    ClosedRests(c, s);
    ClosedKeeps(c, s);
    hide Inv, Waiting, Rest, TableInv, SharedUnits, DelUnits, DelCan;
    TallyFree(c, t);
    StatusFree(c, t);
    DeliveryFree(c, t);
    forall i: nat | i < |s.dels| ensures s.dels[i].pc == DelAsleep {
      DelRests(c, t, i);
      DelAtRest(t, i);
      assert DelFlow(t.deliv, t.noMore, t.dels[i].pc);
    }
  }

  // ---------------------------------------------------------------- the run

  lemma NextBeforeClosing(c: Config, run: seq<State>, ls: seq<Label>) returns (l: Label, s': State)
    requires IsRun(c, run, ls) && !Waiting(c, run[|ls|]) && !run[|ls|].noMore
    ensures Next(c, run[|ls|], l, s') && !Spurious(l) && !s'.noMore && 0 <= Work(c, s') < Work(c, run[|ls|])
  {
    var s := run[|ls|];
    RunSafe(c, run, ls, |ls|);
    WorkIsUsed(c, run, ls, |ls|);
    assert Shape(c, s);
    hide Work, Inv, Shape, Can, IsRun, Idle, Spurious, ClaimInv;
    l :| Can(c, s, l) && !Spurious(l) && !Idle(s, l) && !Closing(s, l);
    s' := Do(c, s, l);
    assert Next(c, s, l, s');
    assert !s'.noMore by { hide MgrNext, MgrLocks, WakeAll, CookNext, CookLocks, CookTable, DelNext, DelLocks, DelBag; }
    hide Next, Do;
    StepUses(c, s, l, s');
    InvStep(c, s, l, s');
    WorkIsNatural(c, s');
  }

  // Everybody but the manager goes on as far as possible: the deliverers fall asleep.
  lemma {:induction false} BeforeClosing(c: Config, run: seq<State>, ls: seq<Label>)
    returns (run': seq<State>, ls': seq<Label>)
    requires IsRun(c, run, ls) && !run[|ls|].noMore
    ensures IsRun(c, run', ls') && run <= run' && ls <= ls' && forall j :: |ls| <= j < |ls'| ==> !Spurious(ls'[j])
    ensures run'[|ls'|].mgr == SetNoMore
    ensures forall i: nat :: i < |run'[|ls'|].dels| ==> run'[|ls'|].dels[i].pc == DelAsleep
    decreases Work(c, run[|ls|])
  {
    hide Work, Waiting, Next, Spurious, Inv;
    if Waiting(c, run[|ls|]) {
      run', ls' := run, ls;
      RunSafe(c, run, ls, |ls|);
      OnlyClosingLeft(c, run[|ls|]);
      DelsAsleep(c, run[|ls|]);
    } else {
      var l, s' := NextBeforeClosing(c, run, ls);
      Longer(c, run, ls, l, s');
      run', ls' := BeforeClosing(c, run + [s'], ls + [l]);
    }
  }

  // Then the manager leaves, and nobody tells them.
  lemma Closes(c: Config, run: seq<State>, ls: seq<Label>) returns (run': seq<State>, ls': seq<Label>)
    requires IsRun(c, run, ls) && run[|ls|].mgr == SetNoMore
    ensures IsRun(c, run', ls') && run <= run' && ls' == ls + [Mgr]
  {
    var s := run[|ls|];
    RunSafe(c, run, ls, |ls|);
    assert Shape(c, s);
    hide Inv, IsRun, WakeAll;
    Longer(c, run, ls, Mgr, MgrDo(c, s));
    run', ls' := run + [MgrDo(c, s)], ls + [Mgr];
  }

  lemma StayAsleep(c: Config, run: seq<State>, ls: seq<Label>, k: nat)
    requires IsRun(c, run, ls) && Rest(c, run[|ls|]) && k < |ls| && ls[k] == Mgr && run[k].mgr == SetNoMore
    requires forall i: nat :: i < |run[k].dels| ==> run[k].dels[i].pc == DelAsleep
    requires forall j :: k < j < |ls| ==> !Spurious(ls[j])
    ensures forall i: nat :: i < |run[|ls|].dels| ==> run[|ls|].dels[i].pc == DelAsleep
    ensures run[|ls|].main.JoinDeliverer?
  {
    Quiescence(c, run, ls);
    DelsCounted(c, run, ls);
    CaughtForGood(c, run, ls, k, |ls|, 0);
    forall i: nat | i < |c.tids|
      ensures run[|ls|].dels[i].pc == DelAsleep
    {
      CaughtForGood(c, run, ls, k, |ls|, i);
      hide IsRun, Rest;
    }
    hide IsRun, Rest;
  }

  // As long as no_more_orders has not been set, any session may go on, without further
  // spurious wake-ups, to rest with every deliverer asleep and main joining one of them.
  lemma SessionCanStall(c: Config, run: seq<State>, ls: seq<Label>) returns (run': seq<State>, ls': seq<Label>)
    requires IsRun(c, run, ls) && !run[|ls|].noMore
    ensures IsRun(c, run', ls') && run <= run' && ls <= ls' && forall j :: |ls| <= j < |ls'| ==> !Spurious(ls'[j])
    ensures Rest(c, run'[|ls'|]) && run'[|ls'|].main.JoinDeliverer?
    ensures forall i: nat :: i < |run'[|ls'|].dels| ==> run'[|ls'|].dels[i].pc == DelAsleep
  {
    var run1, ls1 := BeforeClosing(c, run, ls);
    var run2, ls2 := Closes(c, run1, ls1);
    run', ls' := ComesToRest(c, run2, ls2);
    assert run'[|ls1|] == run1[|ls1|] && ls'[|ls1|] == Mgr;
    StayAsleep(c, run', ls', |ls1|);
    hide IsRun, Rest;
  }

  // So there is no choice of orders, cooks and deliverers with which this cannot happen.
  lemma EveryShopCanStall(c: Config) returns (run: seq<State>, ls: seq<Label>)
    requires GoodConfig(c)
    ensures IsRun(c, run, ls) && forall j :: 0 <= j < |ls| ==> !Spurious(ls[j])
    ensures Rest(c, run[|ls|]) && run[|ls|].main.JoinDeliverer?
    ensures forall i: nat :: i < |run[|ls|].dels| ==> run[|ls|].dels[i].pc == DelAsleep
  {
    var s := State(Locks(1, 1, 1, 1, 3, 6, 1, 1, 1, 1, |c.tids|, 0, 1), [], 0, 0, false, [], [], seq(|c.tids|, _ => 0),
                   Read, 0, seq(c.cooks, _ => Outer), seq(|c.tids|, _ => Deliverer(DLock, [])), JoinManager, [],
                   Log([], [], [], [], [], [], []));
    assert IsRun(c, [s], []);
    hide *;
    run, ls := SessionCanStall(c, [s], []);
  }
}
