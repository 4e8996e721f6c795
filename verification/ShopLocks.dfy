// Every mutex and semaphore of the shop: free units plus holders make its capacity.
module ShopLocks {
  import opened Counting
  import opened Shop

  // ---------------------------------------------------------------- holders

  predicate CookFull(pc: CookPc) {
    pc.SpinNext? || pc.SpinMore? || pc.BodyNext? || pc.BodyMore? || pc.ReturnUnlock? || pc.IfNext?
    || pc.ContinueUnlock? || pc.TakeNext? || pc.FullUnlock?
  }

  predicate CookEntrance(pc: CookPc) {
    pc.CookingLock? || pc.SetCooking? || pc.CookingUnlock? || pc.InOven? || pc.EntrancePost?
  }

  predicate CookOven(pc: CookPc) {
    pc.EntranceWait? || CookEntrance(pc) || pc.OvenPost?
  }

  predicate CookShovel(pc: CookPc) {
    pc.OvenWait? || CookOven(pc) || pc.ShovelPost?
  }

  predicate CookExit(pc: CookPc) {
    pc.ExitPost?
  }

  predicate CookStatus(pc: CookPc) {
    pc.SetCooking? || pc.CookingUnlock? || pc.SetCooked? || pc.CookedUnlock?
  }

  predicate CookConsume(pc: CookPc) {
    pc.EnqueueReady? || pc.SignalConsume? || pc.ReadyUnlock?
  }

  predicate DelStatus(d: Deliverer) {
    d.pc.Lookup? || d.pc.StatusUnlock?
  }

  predicate DelDelivery(d: Deliverer) {
    d.pc.TestQueue? || d.pc.TestMore? || d.pc.DeliverWait? || d.pc.IfQueue? || d.pc.IfMore? || d.pc.ExitUnlock?
    || d.pc.TakeWait? || d.pc.Take? || d.pc.TakePost? || d.pc.DUnlock?
  }

  predicate DelQueue(d: Deliverer) {
    d.pc.Take? || d.pc.TakePost?
  }

  predicate DelTally(d: Deliverer) {
    d.pc.Tally? || d.pc.TallyPost?
  }

  predicate DelMoto(d: Deliverer) {
    d.pc.TallyWait? || DelTally(d) || d.pc.Deliver? || d.pc.MotoPost?
  }

  predicate MgrConsume(pc: MgrPc) {
    pc.TestReady? || pc.ConsumeWait? || pc.QueueWait? || MgrHolding(pc) || pc.CountUp? || pc.DelQueuePost?
    || pc.BroadcastDeliver? || pc.DeliveryUnlock? || pc.ConsumeUnlock? || pc.Dequeue?
  }

  // Between the two queues.
  predicate MgrHolding(pc: MgrPc) {
    pc.CounterWait? || pc.QueuePost? || pc.Search? || pc.DeliveryLock? || pc.DelQueueWait? || pc.Enqueue?
  }

  predicate MgrQueue(pc: MgrPc) {
    pc.Dequeue? || pc.CounterWait? || pc.QueuePost?
  }

  predicate MgrDelivery(pc: MgrPc) {
    pc.DelQueueWait? || pc.Enqueue? || pc.CountUp? || pc.DelQueuePost? || pc.BroadcastDeliver? || pc.DeliveryUnlock?
  }

  predicate MgrDelQueue(pc: MgrPc) {
    pc.Enqueue? || pc.CountUp? || pc.DelQueuePost?
  }

  // ---------------------------------------------------------------- conservation of units

  predicate CookUnits(s: State) {
    && s.locks.full + Count(CookFull, s.cooks) == 1
    && s.locks.shovel + Count(CookShovel, s.cooks) == 3
    && s.locks.oven + Count(CookOven, s.cooks) == 6
    && s.locks.entrance + Count(CookEntrance, s.cooks) == 1
    && s.locks.exit + Count(CookExit, s.cooks) == 1
  }

  predicate DelUnits(s: State) {
    && s.locks.moto + Count(DelMoto, s.dels) == |s.dels|
    && s.locks.tally + Count(DelTally, s.dels) == 1
    && s.locks.delivery + Count(DelDelivery, s.dels) + One(MgrDelivery(s.mgr)) == 1
    && s.locks.delQueue + Count(DelQueue, s.dels) + One(MgrDelQueue(s.mgr)) == 1
  }

  predicate SharedUnits(s: State) {
    && s.locks.status + Count(CookStatus, s.cooks) + Count(DelStatus, s.dels) == 1
    && s.locks.consume + Count(CookConsume, s.cooks) + One(MgrConsume(s.mgr)) == 1
    && s.locks.queue + One(MgrQueue(s.mgr)) == 1
  }

  predicate LockInv(s: State) {
    CookUnits(s) && DelUnits(s) && SharedUnits(s)
  }

  lemma CookCountsZero(cooks: seq<CookPc>)
    requires forall i :: 0 <= i < |cooks| ==> cooks[i] == Outer
    ensures Count(CookFull, cooks) == Count(CookShovel, cooks) == Count(CookOven, cooks) == 0
    ensures Count(CookEntrance, cooks) == Count(CookExit, cooks) == 0
    ensures Count(CookStatus, cooks) == Count(CookConsume, cooks) == 0
  {
    CountBounds(CookFull, cooks);
    CountBounds(CookShovel, cooks);
    CountBounds(CookOven, cooks);
    CountBounds(CookEntrance, cooks);
    CountBounds(CookExit, cooks);
    CountBounds(CookStatus, cooks);
    CountBounds(CookConsume, cooks);
  }

  lemma DelCountsZero(dels: seq<Deliverer>)
    requires forall i :: 0 <= i < |dels| ==> dels[i].pc == DLock
    ensures Count(DelMoto, dels) == Count(DelTally, dels) == Count(DelDelivery, dels) == 0
    ensures Count(DelQueue, dels) == Count(DelStatus, dels) == 0
  {
    CountBounds(DelMoto, dels);
    CountBounds(DelTally, dels);
    CountBounds(DelDelivery, dels);
    CountBounds(DelQueue, dels);
    CountBounds(DelStatus, dels);
  }

  lemma LockInit(c: Config, s: State)
    requires Init(c, s)
    ensures LockInv(s)
  {
    CookCountsZero(s.cooks);
    DelCountsZero(s.dels);
    hide Count;
  }

  // ---------------------------------------------------------------- preservation

  // Units go from the pool to a thread, or back, or nowhere.
  predicate Trade(units: int, units': int, before: bool, after: bool) {
    units' + One(after) == units + One(before)
  }

  lemma CookTradesOven(s: State, pc: CookPc)
    ensures var l, l', q := s.locks, CookLocks(s.locks, pc), CookNext(s, pc);
      && Trade(l.shovel, l'.shovel, CookShovel(pc), CookShovel(q))
      && Trade(l.oven, l'.oven, CookOven(pc), CookOven(q))
      && Trade(l.entrance, l'.entrance, CookEntrance(pc), CookEntrance(q))
      && Trade(l.exit, l'.exit, CookExit(pc), CookExit(q))
  {
  }

  lemma CookTradesShared(s: State, pc: CookPc)
    ensures var l, l', q := s.locks, CookLocks(s.locks, pc), CookNext(s, pc);
      && Trade(l.full, l'.full, CookFull(pc), CookFull(q))
      && Trade(l.status, l'.status, CookStatus(pc), CookStatus(q))
      && Trade(l.consume, l'.consume, CookConsume(pc), CookConsume(q))
      && l'.delivery == l.delivery && l'.queue == l.queue && l'.delQueue == l.delQueue && l'.moto == l.moto
      && l'.cookCounter == l.cookCounter && l'.tally == l.tally
  {
  }

  lemma CookRecount(cooks: seq<CookPc>, i: nat, q: CookPc)
    requires i < |cooks|
    ensures var after := cooks[i := q];
      && Count(CookFull, after) == Count(CookFull, cooks) - One(CookFull(cooks[i])) + One(CookFull(q))
      && Count(CookShovel, after) == Count(CookShovel, cooks) - One(CookShovel(cooks[i])) + One(CookShovel(q))
      && Count(CookOven, after) == Count(CookOven, cooks) - One(CookOven(cooks[i])) + One(CookOven(q))
      && Count(CookEntrance, after) == Count(CookEntrance, cooks) - One(CookEntrance(cooks[i])) + One(CookEntrance(q))
      && Count(CookExit, after) == Count(CookExit, cooks) - One(CookExit(cooks[i])) + One(CookExit(q))
      && Count(CookStatus, after) == Count(CookStatus, cooks) - One(CookStatus(cooks[i])) + One(CookStatus(q))
      && Count(CookConsume, after) == Count(CookConsume, cooks) - One(CookConsume(cooks[i])) + One(CookConsume(q))
  {
    CountUpdate(CookFull, cooks, i, q);
    CountUpdate(CookShovel, cooks, i, q);
    CountUpdate(CookOven, cooks, i, q);
    CountUpdate(CookEntrance, cooks, i, q);
    CountUpdate(CookExit, cooks, i, q);
    CountUpdate(CookStatus, cooks, i, q);
    CountUpdate(CookConsume, cooks, i, q);
    hide *;
  }

  lemma OvenCook(s: State, i: nat)
    requires CookUnits(s) && CookCan(s, i)
    ensures CookUnits(CookDo(s, i))
  {
    var pc, q := s.cooks[i], CookNext(s, s.cooks[i]);
    hide Count, CookFull, CookShovel, CookOven, CookEntrance, CookExit, CookStatus, CookConsume, CookNext, CookLocks,
      CookTable;
    CookTradesOven(s, pc);
    CookTradesShared(s, pc);
    CookRecount(s.cooks, i, q);
  }

  // A signalled manager holds what it held asleep: nothing.
  lemma CookLeavesManager(s: State, i: nat)
    requires CookCan(s, i)
    ensures var m, m' := s.mgr, CookDo(s, i).mgr;
      && MgrConsume(m') == MgrConsume(m) && MgrQueue(m') == MgrQueue(m)
      && MgrDelivery(m') == MgrDelivery(m) && MgrDelQueue(m') == MgrDelQueue(m)
  {
    hide CookNext, CookLocks, CookTable;
  }

  lemma SharedCook(s: State, i: nat)
    requires DelUnits(s) && SharedUnits(s) && CookCan(s, i)
    ensures DelUnits(CookDo(s, i)) && SharedUnits(CookDo(s, i))
  {
    var pc, q := s.cooks[i], CookNext(s, s.cooks[i]);
    CookLeavesManager(s, i);
    hide Count, CookFull, CookShovel, CookOven, CookEntrance, CookExit, CookStatus, CookConsume, CookNext, CookLocks,
      CookTable, MgrConsume, MgrQueue, MgrDelivery, MgrDelQueue;
    CookTradesShared(s, pc);
    CookRecount(s.cooks, i, q);
  }

  lemma LockCook(s: State, i: nat)
    requires LockInv(s) && CookCan(s, i)
    ensures LockInv(CookDo(s, i))
  {
    hide CookUnits, DelUnits, SharedUnits, CookDo;
    OvenCook(s, i);
    SharedCook(s, i);
  }

  lemma DelTrades(s: State, d: Deliverer, bag: seq<int>)
    requires d.pc == Take ==> s.deliv != []
    ensures var l, l', e := s.locks, DelLocks(s.locks, d.pc), Deliverer(DelNext(s, d), bag);
      && Trade(l.moto, l'.moto, DelMoto(d), DelMoto(e))
      && Trade(l.tally, l'.tally, DelTally(d), DelTally(e))
      && Trade(l.delivery, l'.delivery, DelDelivery(d), DelDelivery(e))
      && Trade(l.delQueue, l'.delQueue, DelQueue(d), DelQueue(e))
      && Trade(l.status, l'.status, DelStatus(d), DelStatus(e))
      && l'.full == l.full && l'.consume == l.consume && l'.shovel == l.shovel && l'.oven == l.oven
      && l'.entrance == l.entrance && l'.exit == l.exit && l'.queue == l.queue && l'.cookCounter == l.cookCounter
  {
  }

  lemma DelRecount(s: State, i: nat, e: Deliverer)
    requires i < |s.dels|
    ensures var after := s.dels[i := e];
      && Count(DelMoto, after) == Count(DelMoto, s.dels) - One(DelMoto(s.dels[i])) + One(DelMoto(e))
      && Count(DelTally, after) == Count(DelTally, s.dels) - One(DelTally(s.dels[i])) + One(DelTally(e))
      && Count(DelDelivery, after) == Count(DelDelivery, s.dels) - One(DelDelivery(s.dels[i])) + One(DelDelivery(e))
      && Count(DelQueue, after) == Count(DelQueue, s.dels) - One(DelQueue(s.dels[i])) + One(DelQueue(e))
      && Count(DelStatus, after) == Count(DelStatus, s.dels) - One(DelStatus(s.dels[i])) + One(DelStatus(e))
  {
    CountUpdate(DelMoto, s.dels, i, e);
    CountUpdate(DelTally, s.dels, i, e);
    CountUpdate(DelDelivery, s.dels, i, e);
    CountUpdate(DelQueue, s.dels, i, e);
    CountUpdate(DelStatus, s.dels, i, e);
  }

  lemma LockDel(c: Config, s: State, i: nat)
    requires LockInv(s) && Shape(c, s) && DelCan(s, i)
    ensures LockInv(DelDo(c, s, i))
  {
    var d := s.dels[i];
    DelTrades(s, d, DelBag(s, d));
    DelRecount(s, i, Deliverer(DelNext(s, d), DelBag(s, d)));
    hide Count, DelMoto, DelTally, DelDelivery, DelQueue, DelStatus, DelNext, DelLocks, DelBag, Found, FindTid;
  }

  // A count that does not tell a sleeper from one that has been woken.
  lemma {:induction false} WakeKeeps(p: Deliverer -> bool, dels: seq<Deliverer>)
    requires forall d: Deliverer :: d.pc == DelAsleep ==> p(d.(pc := DelRelock)) == p(d)
    ensures Count(p, WakeAll(dels)) == Count(p, dels)
  {
    if dels == [] {
    } else {
      WakeKeeps(p, dels[1..]);
      assert WakeAll(dels)[1..] == WakeAll(dels[1..]);
    }
  }

  // Waking the deliverers changes nobody's holdings.
  lemma WakeKeepsCounts(dels: seq<Deliverer>)
    ensures Count(DelMoto, WakeAll(dels)) == Count(DelMoto, dels)
    ensures Count(DelTally, WakeAll(dels)) == Count(DelTally, dels)
    ensures Count(DelDelivery, WakeAll(dels)) == Count(DelDelivery, dels)
    ensures Count(DelQueue, WakeAll(dels)) == Count(DelQueue, dels)
    ensures Count(DelStatus, WakeAll(dels)) == Count(DelStatus, dels)
  {
    hide WakeAll, Count;
    WakeKeeps(DelMoto, dels);
    WakeKeeps(DelTally, dels);
    WakeKeeps(DelDelivery, dels);
    WakeKeeps(DelQueue, dels);
    WakeKeeps(DelStatus, dels);
  }

  lemma MgrTrades(c: Config, s: State)
    requires MgrCan(c, s)
    ensures var l, l', q := s.locks, MgrLocks(s.locks, s.mgr, s.ogc), MgrNext(c, s);
      && Trade(l.consume, l'.consume, MgrConsume(s.mgr), MgrConsume(q))
      && Trade(l.queue, l'.queue, MgrQueue(s.mgr), MgrQueue(q))
      && Trade(l.delivery, l'.delivery, MgrDelivery(s.mgr), MgrDelivery(q))
      && Trade(l.delQueue, l'.delQueue, MgrDelQueue(s.mgr), MgrDelQueue(q))
      && l'.full == l.full && l'.status == l.status && l'.shovel == l.shovel && l'.oven == l.oven
      && l'.entrance == l.entrance && l'.exit == l.exit && l'.moto == l.moto && l'.tally == l.tally
  {
    hide FindOrder;
  }

  lemma LockMgr(c: Config, s: State)
    requires LockInv(s) && MgrCan(c, s)
    ensures LockInv(MgrDo(c, s))
  {
    MgrTrades(c, s);
    WakeKeepsCounts(s.dels);
    hide Count, WakeAll, MgrNext, MgrLocks, MgrConsume, MgrQueue, MgrDelivery, MgrDelQueue;
  }

  // A spurious wake-up of deliverer i.
  lemma LockSpurious(s: State, i: nat)
    requires LockInv(s) && i < |s.dels| && s.dels[i].pc == DelAsleep
    ensures LockInv(s.(dels := s.dels[i := s.dels[i].(pc := DelRelock)]))
  {
    DelRecount(s, i, s.dels[i].(pc := DelRelock));
    hide Count;
  }

  lemma LockFrame(s: State, s': State)
    requires LockInv(s) && s'.locks == s.locks && s'.cooks == s.cooks && s'.dels == s.dels
    requires s'.mgr == s.mgr || (s.mgr == MgrAsleep && s'.mgr == MgrRelock)
    ensures LockInv(s')
  {
    hide Count;
  }

  lemma LockStep(c: Config, s: State, l: Label, s': State)
    requires LockInv(s) && Next(c, s, l, s')
    ensures LockInv(s')
  {
    hide LockInv, MgrDo, CookDo, DelDo;
    match l
    case Mgr => LockMgr(c, s);
    case Cook(i) => LockCook(s, i);
    case Del(i) => LockDel(c, s, i);
    case SpuriousDel(i) => LockSpurious(s, i);
    case _ => LockFrame(s, s');
  }

  // No mutex or semaphore is overdrawn.
  predicate UnitsOK(s: State) {
    && s.locks.full >= 0 && s.locks.status >= 0 && s.locks.consume >= 0
    && s.locks.delivery >= 0 && s.locks.delQueue >= 0
    && s.locks.queue >= 0 && s.locks.entrance >= 0 && s.locks.exit >= 0 && s.locks.tally >= 0
    && s.locks.shovel >= 0 && s.locks.oven >= 0 && s.locks.moto >= 0 && s.locks.cookCounter >= 0
  }

  lemma UnitsCook(s: State, i: nat)
    requires UnitsOK(s) && CookCan(s, i)
    ensures UnitsOK(CookDo(s, i))
  {
    assert UnitsOK(s.(locks := CookLocks(s.locks, s.cooks[i])));
    hide CookLocks, CookNext, CookTable;
  }

  lemma UnitsDel(c: Config, s: State, i: nat)
    requires UnitsOK(s) && Shape(c, s) && DelCan(s, i)
    ensures UnitsOK(DelDo(c, s, i))
  {
    assert UnitsOK(s.(locks := DelLocks(s.locks, s.dels[i].pc)));
    hide DelLocks, DelNext, DelBag, Found, FindTid, GoodConfig;
  }

  lemma UnitsMgr(c: Config, s: State)
    requires UnitsOK(s) && MgrCan(c, s)
    ensures UnitsOK(MgrDo(c, s))
  {
    assert UnitsOK(s.(locks := MgrLocks(s.locks, s.mgr, s.ogc)));
    hide MgrLocks, MgrNext, WakeAll;
  }

  lemma UnitsStep(c: Config, s: State, l: Label, s': State)
    requires UnitsOK(s) && Next(c, s, l, s')
    ensures UnitsOK(s')
  {
    match l
    case Mgr => UnitsMgr(c, s);
    case Cook(i) => UnitsCook(s, i);
    case Del(i) => UnitsDel(c, s, i);
    case _ => hide GoodConfig;
  }
}
