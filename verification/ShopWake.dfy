// Why no wake-up that matters is lost: what a sleeping or waiting thread of the shop may
// rely on.
module ShopWake {
  import opened Counting
  import opened Shop
  import opened ShopLocks
  import opened ShopCounts

  // What a deliverer at pc has read, and nobody can have changed since.
  predicate DelFlow(deliv: seq<int>, noMore: bool, pc: DelPc) {
    && (pc.TestMore? || pc.DeliverWait? ==> deliv == [])
    && (pc.IfQueue? ==> deliv != [] || noMore)
    && (pc.IfMore? ==> deliv == [] && noMore)
    && (pc.TakeWait? || pc.Take? ==> deliv != [])
    && (pc.ExitUnlock? || pc.DelReturned? ==> deliv == [] && noMore)
  }

  // An order has been put into the delivery queue, the deliverers not yet told.
  predicate Announcing(pc: MgrPc) {
    pc.CountUp? || pc.DelQueuePost? || pc.BroadcastDeliver?
  }

  predicate DelWakeInv(s: State) {
    && (forall i: nat :: i < |s.dels| ==> DelFlow(s.deliv, s.noMore, s.dels[i].pc))
    && (s.deliv != [] && !Announcing(s.mgr) ==> forall i: nat :: i < |s.dels| ==> s.dels[i].pc != DelAsleep)
  }

  predicate Signalling(cooks: seq<CookPc>) {
    exists i: nat :: i < |cooks| && cooks[i] == SignalConsume
  }

  predicate MgrWakeInv(s: State) {
    && (s.mgr == MgrAsleep ==> s.ready == [] || Signalling(s.cooks))
    && (s.mgr == ConsumeWait ==> s.ready == [])
    && (s.mgr == QueueWait || s.mgr == Dequeue ==> s.ready != [])
  }

  predicate CookFlow(noMore: bool, pc: CookPc) {
    pc.ReturnUnlock? || pc.CookReturned? ==> noMore
  }

  predicate CookWakeInv(s: State) {
    forall i: nat :: i < |s.cooks| ==> CookFlow(s.noMore, s.cooks[i])
  }

  predicate WakeInv(s: State) {
    DelWakeInv(s) && MgrWakeInv(s) && CookWakeInv(s)
  }

  // ---------------------------------------------------------------- exclusion

  lemma OneDelivers(s: State, i: nat, j: nat)
    requires LockInv(s) && UnitsOK(s) && i < |s.dels| && j < |s.dels| && DelDelivery(s.dels[i])
    ensures !MgrDelivery(s.mgr) && (i != j ==> !DelDelivery(s.dels[j]))
  {
    CountOne(DelDelivery, s.dels, i);
    if i != j && DelDelivery(s.dels[j]) {
      CountTwo(DelDelivery, s.dels, if i < j then i else j, if i < j then j else i);
    }
    hide DelDelivery, MgrDelivery, Count;
  }

  lemma ManagerDelivers(s: State, j: nat)
    requires LockInv(s) && UnitsOK(s) && j < |s.dels| && MgrDelivery(s.mgr)
    ensures !DelDelivery(s.dels[j])
  {
    hide DelDelivery;
    if DelDelivery(s.dels[j]) { OneDelivers(s, j, j); }
  }

  lemma ManagerConsumes(s: State, j: nat)
    requires LockInv(s) && UnitsOK(s) && j < |s.cooks| && MgrConsume(s.mgr)
    ensures !CookConsume(s.cooks[j])
  {
    if CookConsume(s.cooks[j]) { CountOne(CookConsume, s.cooks, j); }
    hide CookConsume, MgrConsume, Count;
  }

  // ---------------------------------------------------------------- cooks

  lemma CookFlows(s: State, pc: CookPc)
    requires CookFlow(s.noMore, pc)
    ensures CookFlow(s.noMore, CookNext(s, pc))
  {
  }

  lemma CookWakes(s: State, i: nat)
    requires CookCan(s, i)
    ensures i < |s.cooks|
    ensures var s', pc := CookDo(s, i), s.cooks[i];
      && s'.cooks == s.cooks[i := CookNext(s, pc)] && s'.dels == s.dels
      && s'.deliv == s.deliv && s'.noMore == s.noMore && s.ready <= s'.ready
      && (s'.ready == s.ready || pc.EnqueueReady?)
      && s'.mgr == if pc == SignalConsume && s.mgr == MgrAsleep then MgrRelock else s.mgr
  {
    hide CookNext, CookLocks, CookTable;
  }

  lemma MgrWakeCook(s: State, i: nat)
    requires LockInv(s) && UnitsOK(s) && MgrWakeInv(s) && CookCan(s, i)
    ensures MgrWakeInv(CookDo(s, i))
  {
    hide LockInv, UnitsOK, CookDo, CookCan;
    CookWakes(s, i);
    var s', pc := CookDo(s, i), s.cooks[i];
    if MgrConsume(s.mgr) { ManagerConsumes(s, i); }
    assert s.mgr == ConsumeWait ==> MgrConsume(s.mgr);
    assert pc.EnqueueReady? ==> CookConsume(pc) && s'.cooks[i] == SignalConsume;
    hide CookNext, CookConsume, MgrConsume;
    if s'.mgr == MgrAsleep && s.ready != [] {
      var j: nat :| j < |s.cooks| && s.cooks[j] == SignalConsume;
      assert s'.cooks[j] == SignalConsume;
    }
  }

  lemma WakeCook(s: State, i: nat)
    requires LockInv(s) && UnitsOK(s) && WakeInv(s) && CookCan(s, i)
    ensures WakeInv(CookDo(s, i))
  {
    hide LockInv, UnitsOK, CookDo, CookCan, CookNext, CookFlow, DelFlow, MgrWakeInv;
    CookWakes(s, i);
    assert CookFlow(s.noMore, s.cooks[i]);
    CookFlows(s, s.cooks[i]);
    MgrWakeCook(s, i);
  }

  // ---------------------------------------------------------------- deliverers

  lemma DelFlows(s: State, d: Deliverer)
    requires DelFlow(s.deliv, s.noMore, d.pc) && (d.pc == Take ==> s.deliv != [])
    ensures d.pc != Take ==> DelFlow(s.deliv, s.noMore, DelNext(s, d))
    ensures d.pc == Take ==> DelNext(s, d).TakePost? && DelDelivery(d)
    ensures DelNext(s, d) == DelAsleep ==> d.pc == DelAsleep || s.deliv == []
  {
  }

  // Shortening a queue that was not empty concerns only threads that hold the lock.
  lemma FlowOutside(d: Deliverer, deliv: seq<int>, deliv': seq<int>, noMore: bool)
    requires DelFlow(deliv, noMore, d.pc) && !DelDelivery(d) && (d.pc == DelReturned ==> deliv' == deliv)
    ensures DelFlow(deliv', noMore, d.pc)
  {
  }

  lemma WakeDel(c: Config, s: State, i: nat)
    requires LockInv(s) && UnitsOK(s) && WakeInv(s) && Shape(c, s) && DelCan(s, i)
    ensures WakeInv(DelDo(c, s, i))
  {
    var s', d := DelDo(c, s, i), s.dels[i];
    assert DelFlow(s.deliv, s.noMore, d.pc);
    DelFlows(s, d);
    assert d.pc != DelAsleep && s'.dels == s.dels[i := s'.dels[i]] && s'.dels[i].pc == DelNext(s, d);
    assert d.pc == Take ==> DelFlow(s'.deliv, s.noMore, s'.dels[i].pc);
    assert d.pc == Take ==> s.deliv != [];
    assert s'.deliv == if d.pc == Take then s.deliv[1..] else s.deliv;
    assert s'.ready == s.ready && s'.mgr == s.mgr && s'.cooks == s.cooks && s'.noMore == s.noMore;
    forall j: nat | j < |s.dels| ensures DelFlow(s'.deliv, s'.noMore, s'.dels[j].pc) {
      assert DelFlow(s.deliv, s.noMore, s.dels[j].pc);
      hide LockInv, UnitsOK, WakeInv, DelDo, DelNext, DelDelivery;
      if d.pc == Take && j != i {
        OneDelivers(s, i, j);
        assert s.dels[j].pc != DelReturned;
        FlowOutside(s.dels[j], s.deliv, s'.deliv, s.noMore);
      }
    }
    hide LockInv, UnitsOK, DelDo, DelNext, DelDelivery, DelFlow, CookFlow;
  }

  // ---------------------------------------------------------------- manager

  lemma FlowMore(pc: DelPc, deliv: seq<int>, noMore: bool)
    requires DelFlow(deliv, noMore, pc)
    ensures DelFlow(deliv, true, pc) && (pc == DelAsleep ==> DelFlow(deliv, noMore, DelRelock))
  {
  }

  lemma MgrWakes(c: Config, s: State)
    requires MgrCan(c, s) && MgrWakeInv(s)
    ensures MgrWakeInv(MgrDo(c, s))
    ensures Announcing(s.mgr) ==> Announcing(MgrNext(c, s)) || s.mgr == BroadcastDeliver
    ensures s.mgr.Enqueue? ==> MgrDelivery(s.mgr) && Announcing(MgrNext(c, s))
  {
    hide FindOrder, MgrLocks, WakeAll;
  }

  lemma WakeMgr(c: Config, s: State)
    requires LockInv(s) && UnitsOK(s) && WakeInv(s) && PhaseInv(c, s) && MgrCan(c, s)
    ensures WakeInv(MgrDo(c, s))
  {
    var s' := MgrDo(c, s);
    MgrWakes(c, s);
    assert s.mgr.Enqueue? ==> !s.noMore;
    assert s'.deliv == if s.mgr.Enqueue? then s.deliv + [s.mgr.id] else s.deliv;
    assert s'.noMore == (s.noMore || s.mgr == SetNoMore) && s'.cooks == s.cooks;
    assert s'.dels == if s.mgr == BroadcastDeliver then WakeAll(s.dels) else s.dels;
    forall j: nat | j < |s.dels| ensures DelFlow(s'.deliv, s'.noMore, s'.dels[j].pc) {
      assert DelFlow(s.deliv, s.noMore, s.dels[j].pc);
      FlowMore(s.dels[j].pc, s.deliv, s.noMore);
      hide LockInv, UnitsOK, WakeInv, MgrDo, MgrDelivery, DelDelivery, PhaseInv;
      if s.mgr.Enqueue? {
        ManagerDelivers(s, j);
        assert s.dels[j].pc != DelReturned;
        FlowOutside(s.dels[j], s.deliv, s'.deliv, s.noMore);
      }
    }
    assert s'.mgr == MgrNext(c, s);
    hide LockInv, UnitsOK, MgrDo, MgrNext, MgrDelivery, DelDelivery, DelFlow, PhaseInv, Announcing, MgrWakeInv;
  }

  // ---------------------------------------------------------------- all steps

  lemma WakeInit(c: Config, s: State)
    requires Init(c, s)
    ensures WakeInv(s)
  {
  }

  lemma WakeFrame(s: State, s': State)
    requires WakeInv(s)
    requires s' == s.(main := s'.main) || (s.mgr == MgrAsleep && s' == s.(mgr := MgrRelock))
    ensures WakeInv(s')
  {
    hide DelFlow, CookFlow;
  }

  lemma WakeSpurious(s: State, i: nat)
    requires WakeInv(s) && i < |s.dels| && s.dels[i].pc == DelAsleep
    ensures WakeInv(s.(dels := s.dels[i := s.dels[i].(pc := DelRelock)]))
  {
    FlowMore(s.dels[i].pc, s.deliv, s.noMore);
    hide CookFlow;
  }

  lemma WakeStep(c: Config, s: State, l: Label, s': State)
    requires LockInv(s) && UnitsOK(s) && PhaseInv(c, s) && WakeInv(s) && Next(c, s, l, s')
    ensures WakeInv(s')
  {
    hide LockInv, UnitsOK, PhaseInv, WakeInv, MgrDo, CookDo, DelDo;
    match l
    case Mgr => WakeMgr(c, s);
    case Cook(i) => WakeCook(s, i);
    case Del(i) => WakeDel(c, s, i);
    case SpuriousDel(i) => WakeSpurious(s, i);
    case _ => WakeFrame(s, s');
  }
}
