// The counters of the shop agree with where the orders are.
module ShopCounts {
  import opened Counting
  import opened Shop
  import opened ShopLocks
  import opened ShopOrders
  import opened ShopSteps

  // A deliverer with an order, and one that has counted it in p_count already.
  predicate DelBusy(d: Deliverer) {
    DelCarries(d.pc) || DelBagged(d.pc)
  }

  predicate DelTallied(d: Deliverer) {
    d.pc.TallyPost? || d.pc.Deliver?
  }

  function Sum(ns: seq<nat>): nat {
    if ns == [] then 0 else ns[0] + Sum(ns[1..])
  }

  predicate PlacesCounted(s: State) {
    && s.next == Count(CookHolds, s.cooks) + |s.ready| + One(MgrHolding(s.mgr)) + |s.deliv| + Count(DelBusy, s.dels)
       + |s.delivered|
    && s.counter + One(s.mgr == CountUp) == |s.deliv| + Count(DelBusy, s.dels) + |s.delivered|
  }

  predicate DeliveriesTallied(s: State) {
    Sum(s.pCounts) == |s.delivered| + Count(DelTallied, s.dels)
  }

  predicate CountInv(s: State) {
    PlacesCounted(s) && DeliveriesTallied(s)
  }

  // The forwarding loop with an order still to forward, and after cook_counter was taken.
  predicate MgrLooking(pc: MgrPc) {
    pc.ConsumeLock? || pc.TestReady? || pc.ConsumeWait? || pc.MgrAsleep? || pc.MgrRelock? || pc.QueueWait?
    || pc.Dequeue? || MgrHolding(pc) || pc.CountUp?
  }

  predicate MgrPaid(pc: MgrPc) {
    (MgrHolding(pc) && !pc.CounterWait?) || pc.CountUp?
  }

  predicate MgrLeaving(pc: MgrPc) {
    pc.BroadcastNew? || pc.SetNoMore? || pc.MgrReturned?
  }

  predicate PhaseInv(c: Config, s: State) {
    && (s.noMore <==> s.mgr == MgrReturned)
    && (Reading(s.mgr) ==> s.counter == 0)
    && (MgrLooking(s.mgr) ==> s.counter < |c.orders|)
    && (MgrLeaving(s.mgr) ==> s.counter == |c.orders|)
    && (!Reading(s.mgr) ==> s.locks.cookCounter == |c.orders| - s.counter - One(MgrPaid(s.mgr)))
  }

  // ---------------------------------------------------------------- start

  lemma {:induction false} SumZero(ns: seq<nat>)
    requires forall i :: 0 <= i < |ns| ==> ns[i] == 0
    ensures Sum(ns) == 0
  {
    if ns == [] {
    } else {
      SumZero(ns[1..]);
    }
  }

  lemma {:induction false} SumUp(ns: seq<nat>, k: nat)
    requires k < |ns|
    ensures Sum(ns[k := ns[k] + 1]) == Sum(ns) + 1
  {
    if k == 0 {
      assert ns[0 := ns[0] + 1][1..] == ns[1..];
    } else {
      SumUp(ns[1..], k - 1);
      assert ns[k := ns[k] + 1][1..] == ns[1..][k - 1 := ns[1..][k - 1] + 1];
    }
  }

  lemma CountInit(c: Config, s: State)
    requires Init(c, s)
    ensures CountInv(s) && PhaseInv(c, s)
  {
    CountBounds(CookHolds, s.cooks);
    CountBounds(DelBusy, s.dels);
    CountBounds(DelTallied, s.dels);
    SumZero(s.pCounts);
  }

  // ---------------------------------------------------------------- deliverers

  lemma DelCounts(s: State, d: Deliverer, e: Deliverer)
    requires BagOK(d) && (d.pc == Take ==> s.deliv != []) && e.pc == DelNext(s, d)
    ensures One(DelBusy(e)) == One(DelBusy(d)) + One(d.pc == Take) - One(d.pc == Deliver)
    ensures One(DelTallied(e)) == One(DelTallied(d)) + One(d.pc == Tally) - One(d.pc == Deliver)
  {
  }

  // The deliverer finds its own entry, or an equal one, and adds one.
  lemma TallyOne(c: Config, s: State, i: nat)
    requires Shape(c, s) && DelCan(s, i)
    ensures Sum(DelDo(c, s, i).pCounts) == Sum(s.pCounts) + One(s.dels[i].pc == Tally)
  {
    var mine := FindTid(c.tids, |c.tids|, c.tids[i]);
    if s.dels[i].pc == Tally { SumUp(s.pCounts, mine.value); }
    hide DelNext, DelLocks, DelBag, Found, Sum, GoodConfig, FindTid;
  }

  lemma PlacesDel(c: Config, s: State, i: nat)
    requires PlacesCounted(s) && BagsInv(s) && Shape(c, s) && DelCan(s, i)
    ensures PlacesCounted(DelDo(c, s, i))
  {
    assert BagOK(s.dels[i]);
    hide DelDo, DelNext, DelBag, DelBusy, Count, BagsInv, BagOK, Shape, MgrHolding, CookHolds;
    DelEffect(c, s, i);
    var e := DelDo(c, s, i).dels[i];
    DelCounts(s, s.dels[i], e);
    CountUpdate(DelBusy, s.dels, i, e);
    hide DelCan, DelTallied;
  }

  lemma TalliesDel(c: Config, s: State, i: nat)
    requires DeliveriesTallied(s) && BagsInv(s) && Shape(c, s) && DelCan(s, i)
    ensures DeliveriesTallied(DelDo(c, s, i))
  {
    assert BagOK(s.dels[i]);
    hide DelDo, DelNext, DelBag, DelTallied, Count, Sum, BagsInv, BagOK, Shape;
    DelEffect(c, s, i);
    TallyOne(c, s, i);
    var e := DelDo(c, s, i).dels[i];
    DelCounts(s, s.dels[i], e);
    CountUpdate(DelTallied, s.dels, i, e);
    hide DelCan, DelBusy;
  }

  lemma CountDel(c: Config, s: State, i: nat)
    requires CountInv(s) && BagsInv(s) && Shape(c, s) && DelCan(s, i)
    ensures CountInv(DelDo(c, s, i))
  {
    hide PlacesCounted, DeliveriesTallied, BagsInv, Shape, DelCan, DelDo;
    PlacesDel(c, s, i);
    TalliesDel(c, s, i);
  }

  // ---------------------------------------------------------------- cooks

  lemma CookCounts(s: State, pc: CookPc)
    ensures One(CookHolds(CookNext(s, pc))) == One(CookHolds(pc)) + One(pc == TakeNext) - One(pc.EnqueueReady?)
  {
  }

  lemma CountCook(s: State, i: nat)
    requires CountInv(s) && CookCan(s, i)
    ensures CountInv(CookDo(s, i))
  {
    CookCounts(s, s.cooks[i]);
    CountUpdate(CookHolds, s.cooks, i, CookNext(s, s.cooks[i]));
    hide CookNext, CookLocks, CookTable, CookHolds, Count;
  }

  // ---------------------------------------------------------------- manager

  lemma CountsWake(dels: seq<Deliverer>)
    ensures Count(DelBusy, WakeAll(dels)) == Count(DelBusy, dels)
    ensures Count(DelTallied, WakeAll(dels)) == Count(DelTallied, dels)
  {
    hide WakeAll, Count;
    WakeKeeps(DelBusy, dels);
    WakeKeeps(DelTallied, dels);
  }

  lemma MgrCounts(c: Config, s: State)
    requires MgrCan(c, s) && (s.mgr.Search? ==> FindOrder(s.table, s.ogc, s.mgr.id, None).Some?)
    ensures var q := MgrNext(c, s);
      && One(MgrHolding(q)) == One(MgrHolding(s.mgr)) + One(s.mgr == Dequeue) - One(s.mgr.Enqueue?)
      && One(q == CountUp) == One(s.mgr.Enqueue?)
      && One(MgrPaid(q)) == One(MgrPaid(s.mgr)) + One(s.mgr.CounterWait?) - One(s.mgr == CountUp)
  {
    hide FindOrder;
  }

  lemma CountMgr(c: Config, s: State)
    requires TableInv(c, s) && Conserved(c, s) && CountInv(s) && MgrCan(c, s)
    ensures CountInv(MgrDo(c, s))
  {
    hide MgrNext, MgrLocks, WakeAll, MgrHolding, MgrPaid, Count, Sum, TableInv, Conserved, FindOrder;
    if s.mgr.Search? { SearchFinds(c, s); }
    MgrCounts(c, s);
    CountsWake(s.dels);
  }

  // How the manager goes from reading orders to forwarding them to leaving.
  lemma MgrPhases(c: Config, s: State)
    requires MgrCan(c, s)
    ensures var pc, q := s.mgr, MgrNext(c, s);
      && (q == MgrReturned <==> pc == SetNoMore)
      && (Reading(q) ==> Reading(pc)) && (Reading(pc) && !Reading(q) ==> pc == InitCounter)
      && (MgrLooking(q) ==> (MgrLooking(pc) && pc != CountUp) || (pc == Head && s.counter != s.ogc))
      && (MgrLeaving(q) ==> MgrLeaving(pc) || (pc == Head && s.counter == s.ogc))
      && (pc == CountUp ==> !Reading(q) && !MgrLooking(q) && !MgrLeaving(q))
  {
    hide FindOrder;
  }

  // cook_counter is set once and then taken once per order.
  lemma MgrPays(l: Locks, pc: MgrPc, ogc: nat)
    ensures MgrLocks(l, pc, ogc).cookCounter == if pc == InitCounter then ogc else l.cookCounter - One(pc.CounterWait?)
    ensures pc == InitCounter || pc.CounterWait? ==> !MgrPaid(pc)
    ensures pc == CountUp ==> MgrLooking(pc) && !Reading(pc)
    ensures pc == InitCounter ==> Reading(pc)
  {
  }

  lemma AllRead(c: Config, s: State)
    requires TableInv(c, s) && Conserved(c, s) && CountInv(s)
    ensures s.counter <= |c.orders| && (s.mgr == Head || s.mgr == InitCounter ==> s.ogc == |c.orders|)
  {
    hide MgrHolding, Count, Sum;
  }

  lemma PhaseMgr(c: Config, s: State)
    requires TableInv(c, s) && Conserved(c, s) && CountInv(s) && PhaseInv(c, s) && MgrCan(c, s)
    ensures PhaseInv(c, MgrDo(c, s))
  {
    hide MgrNext, MgrLocks, MgrLooking, MgrLeaving, Reading, MgrPaid, MgrHolding, WakeAll, Count, Sum, TableInv,
      Conserved, CountInv, FindOrder;
    AllRead(c, s);
    if s.mgr.Search? { SearchFinds(c, s); }
    MgrPhases(c, s);
    MgrCounts(c, s);
    MgrPays(s.locks, s.mgr, s.ogc);
  }

  // ---------------------------------------------------------------- all steps

  lemma PhaseOther(c: Config, s: State, l: Label, s': State)
    requires PhaseInv(c, s) && Next(c, s, l, s') && l != Mgr
    ensures PhaseInv(c, s')
  {
    match l
    case Cook(i) => PhaseCook(c, s, i);
    case Del(i) => PhaseDel(c, s, i);
    case _ => hide GoodConfig;
  }

  lemma PhaseCook(c: Config, s: State, i: nat)
    requires PhaseInv(c, s) && CookCan(s, i)
    ensures PhaseInv(c, CookDo(s, i))
  {
    CookTradesShared(s, s.cooks[i]);
    hide CookNext, CookLocks, CookTable, CookFull, CookStatus, CookConsume;
  }

  lemma PhaseDel(c: Config, s: State, i: nat)
    requires PhaseInv(c, s) && Shape(c, s) && DelCan(s, i)
    ensures PhaseInv(c, DelDo(c, s, i))
  {
    DelTrades(s, s.dels[i], []);
    hide DelNext, DelLocks, DelBag, Found, FindTid, DelMoto, DelTally, DelDelivery, DelQueue, DelStatus, GoodConfig;
  }

  lemma CountFrame(s: State, s': State)
    requires CountInv(s)
    requires s' == s.(main := s'.main) || (s.mgr == MgrAsleep && s' == s.(mgr := MgrRelock))
    ensures CountInv(s')
  {
    hide Count;
  }

  lemma CountSpurious(s: State, i: nat)
    requires CountInv(s) && i < |s.dels| && s.dels[i].pc == DelAsleep
    ensures CountInv(s.(dels := s.dels[i := s.dels[i].(pc := DelRelock)]))
  {
    CountUpdate(DelBusy, s.dels, i, s.dels[i].(pc := DelRelock));
    CountUpdate(DelTallied, s.dels, i, s.dels[i].(pc := DelRelock));
    hide Count;
  }

  lemma CountStep(c: Config, s: State, l: Label, s': State)
    requires OrderInv(c, s) && CountInv(s) && PhaseInv(c, s) && Next(c, s, l, s')
    ensures CountInv(s') && PhaseInv(c, s')
  {
    hide CountInv, PhaseInv, MgrDo, CookDo, DelDo, TableInv, Conserved, BagsInv, StatusInv;
    match l
    case Mgr =>
      CountMgr(c, s);
      PhaseMgr(c, s);
    case Cook(i) =>
      PhaseOther(c, s, l, s');
      CountCook(s, i);
    case Del(i) =>
      PhaseOther(c, s, l, s');
      CountDel(c, s, i);
    case SpuriousDel(i) =>
      PhaseOther(c, s, l, s');
      CountSpurious(s, i);
    case _ =>
      PhaseOther(c, s, l, s');
      CountFrame(s, s');
  }
}
