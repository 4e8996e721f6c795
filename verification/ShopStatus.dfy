// Every step keeps each order's status in agreement with its place.
module ShopStatus {
  import opened Shop
  import opened ShopLocks
  import opened ShopOrders
  import opened ShopSteps

  // The order with id x is nowhere but with this cook or this deliverer.
  predicate Elsewhere(c: Config, s: State, x: int, cook: int, del: int) {
    && (forall j: nat :: j < |s.cooks| && j != cook ==> !CookHas(c, s.cooks[j], x))
    && x !in s.ready && !MgrHas(s.mgr, x) && x !in s.deliv
    && (forall j: nat :: j < |s.dels| && j != del ==> !DelHas(s.dels[j], x))
    && x !in s.delivered
  }

  lemma CookAlone(c: Config, s: State, i: nat, x: int)
    requires GoodConfig(c) && Conserved(c, s) && i < |s.cooks| && CookHas(c, s.cooks[i], x)
    ensures Elsewhere(c, s, x, i, -1)
  {
    Once(c, s, x);
    CooksHaveOne(c, s.cooks, i, x);
    hide CookHas, DelHas, Conserved, CooksHave, DelsHave, GoodConfig;
    forall j: nat | j < |s.cooks| && j != i ensures !CookHas(c, s.cooks[j], x) {
      if CookHas(c, s.cooks[j], x) {
        CooksHaveTwo(c, s.cooks, if i < j then i else j, if i < j then j else i, x);
      }
    }
    forall j: nat | j < |s.dels| ensures !DelHas(s.dels[j], x) {
      if DelHas(s.dels[j], x) {
        DelsHaveOne(s.dels, j, x);
      }
    }
  }

  lemma DelAlone(c: Config, s: State, i: nat, x: int)
    requires GoodConfig(c) && Conserved(c, s) && i < |s.dels| && DelHas(s.dels[i], x)
    ensures Elsewhere(c, s, x, -1, i)
  {
    Once(c, s, x);
    DelsHaveOne(s.dels, i, x);
    hide CookHas, DelHas, Conserved, CooksHave, DelsHave, GoodConfig;
    forall j: nat | j < |s.cooks| ensures !CookHas(c, s.cooks[j], x) {
      if CookHas(c, s.cooks[j], x) {
        CooksHaveOne(c, s.cooks, j, x);
      }
    }
    forall j: nat | j < |s.dels| && j != i ensures !DelHas(s.dels[j], x) {
      if DelHas(s.dels[j], x) {
        DelsHaveTwo(s.dels, if i < j then i else j, if i < j then j else i, x);
      }
    }
  }

  // Writing one order's status leaves what is known of the others.
  lemma IsKept(table: seq<Order>, k: nat, st: Status, id: int, was: Status)
    requires k < |table| && table[k].id != id && Is(table, id, was)
    ensures Is(table[k := table[k].(status := st)], id, was)
  {
    var j :| 0 <= j < |table| && table[j] == Order(id, was);
    assert table[k := table[k].(status := st)][j] == Order(id, was);
  }

  lemma AllKept(table: seq<Order>, k: nat, st: Status, q: seq<int>, was: Status)
    requires k < |table| && table[k].id !in q && AllAre(table, q, was)
    ensures AllAre(table[k := table[k].(status := st)], q, was)
  {
    hide Is;
    forall id | id in q ensures Is(table[k := table[k].(status := st)], id, was) {
      assert Is(table, id, was);
      IsKept(table, k, st, id, was);
    }
  }

  // A write to table[k] by its one holder.
  lemma WriteKeeps(c: Config, s: State, k: nat, st: Status, cook: int, del: int)
    requires TableInv(c, s) && StatusInv(s) && k < s.next && Elsewhere(c, s, c.orders[k], cook, del)
    ensures var table' := s.table[k := s.table[k].(status := st)];
      && (forall j: nat :: s.next <= j < |table'| ==> table'[j].status == Waiting)
      && (forall i: nat :: i < |s.cooks| && i != cook ==> CookStatusOK(table', s.cooks[i]))
      && AllAre(table', s.ready, Cooked) && MgrStatusOK(table', s.mgr) && AllAre(table', s.deliv, Cooked)
      && (forall i: nat :: i < |s.dels| && i != del ==> DelStatusOK(table', s.dels[i]))
      && AllAre(table', s.delivered, Delivering)
  {
    var table' := s.table[k := s.table[k].(status := st)];
    assert s.table[k].id == c.orders[k];
    assert |s.table| <= |c.orders|;
    AllKept(s.table, k, st, s.ready, Cooked);
    AllKept(s.table, k, st, s.deliv, Cooked);
    AllKept(s.table, k, st, s.delivered, Delivering);
    if MgrHolding(s.mgr) { IsKept(s.table, k, st, s.mgr.id, Cooked); }
    hide TableInv, AllAre, Is, CookHolds, CookStage, DelCarries, DelBagged;
    forall i: nat | i < |s.cooks| && i != cook ensures CookStatusOK(table', s.cooks[i]) {
      assert CookStatusOK(s.table, s.cooks[i]) && !CookHas(c, s.cooks[i], c.orders[k]);
    }
    forall i: nat | i < |s.dels| && i != del ensures DelStatusOK(table', s.dels[i]) {
      var d := s.dels[i];
      assert DelStatusOK(s.table, d) && !DelHas(d, c.orders[k]);
      if DelCarries(d.pc) { IsKept(s.table, k, st, d.pc.id, Cooked); }
      if DelBagged(d.pc) && |d.bag| == 1 {
        assert d.bag == [d.bag[0]];
        IsKept(s.table, k, st, d.bag[0], Delivering);
      }
    }
  }

  // ---------------------------------------------------------------- cooks

  function StageAfter(pc: CookPc): Status {
    if pc.SetCooking? then Cooking else if pc.SetCooked? then Cooked else CookStage(pc)
  }

  lemma CookStages(s: State, pc: CookPc)
    ensures var q := CookNext(s, pc);
      && (CookHolds(q) && CookHolds(pc) ==> CookStage(q) == StageAfter(pc))
      && (pc == TakeNext ==> CookStage(q) == Waiting)
      && (pc.EnqueueReady? ==> CookHolds(pc) && CookStage(pc) == Cooked && !CookHolds(q))
      && (pc.SetCooking? ==> CookHolds(pc) && CookStage(pc) == Waiting && CookHolds(q) && q.cur == pc.cur)
      && (pc.SetCooked? ==> CookHolds(pc) && CookStage(pc) == Cooking && CookHolds(q) && q.cur == pc.cur)
  {
  }

  lemma StatusCook(c: Config, s: State, i: nat)
    requires TableInv(c, s) && Conserved(c, s) && StatusInv(s) && CookCan(s, i)
    ensures StatusInv(CookDo(s, i))
  {
    var s' := CookDo(s, i);
    var pc, q := s.cooks[i], s'.cooks[i];
    CookStages(s, pc);
    CookClaims(s, pc);
    assert CookStatusOK(s.table, pc);
    if pc.SetCooking? || pc.SetCooked? {
      CookAlone(c, s, i, c.orders[pc.cur]);
      WriteKeeps(c, s, pc.cur, if pc.SetCooking? then Cooking else Cooked, i, -1);
      hide CookNext, CookLocks, CookHolds, CookStage, TableInv, AllAre, DelStatusOK, Elsewhere;
    } else {
      StatusCookQuiet(c, s, i);
    }
  }

  lemma StatusCookQuiet(c: Config, s: State, i: nat)
    requires TableInv(c, s) && StatusInv(s) && CookCan(s, i) && !s.cooks[i].SetCooking? && !s.cooks[i].SetCooked?
    ensures StatusInv(CookDo(s, i))
  {
    var s' := CookDo(s, i);
    var pc, q := s.cooks[i], s'.cooks[i];
    CookStages(s, pc);
    CookClaims(s, pc);
    assert CookStatusOK(s.table, pc);
    assert pc == TakeNext ==> s.next < |s.table|;
    assert s'.table == s.table;
    assert pc.EnqueueReady? ==> s.table[pc.cur] == Order(s.table[pc.cur].id, Cooked);
    assert s'.mgr == s.mgr || !MgrHolding(s'.mgr);
    hide CookNext, CookLocks, CookHolds, CookStage, TableInv, DelStatusOK, MgrHolding;
  }

  // ---------------------------------------------------------------- deliverers

  lemma StatusDel(c: Config, s: State, i: nat)
    requires OrderInv(c, s) && Shape(c, s) && DelCan(s, i)
    ensures StatusInv(DelDo(c, s, i))
  {
    var d := s.dels[i];
    DelBagStep(c, s, i);
    if d.pc.Lookup? {
      var k := LookupFinds(c, s, i);
      DelAlone(c, s, i, d.pc.id);
      WriteKeeps(c, s, k, Delivering, -1, i);
      assert s.table[k].id == d.pc.id;
      assert DelDo(c, s, i).table[k] == Order(d.pc.id, Delivering);
      hide OrderInv, AllAre, CookStatusOK, MgrStatusOK, Elsewhere, FindOrder, FindTid, DelLocks;
    } else {
      assert BagOK(d);
      StatusDelQuiet(c, s, i);
    }
  }

  lemma DelQuiet(c: Config, s: State, i: nat)
    requires StatusInv(s) && Shape(c, s) && DelCan(s, i) && !s.dels[i].pc.Lookup? && BagOK(s.dels[i])
    ensures var s', d := DelDo(c, s, i), s.dels[i];
      && i < |s.dels| == |s'.dels| && s'.dels == s.dels[i := s'.dels[i]] && DelStatusOK(s.table, s'.dels[i])
      && s'.table == s.table && s'.ready == s.ready && s'.mgr == s.mgr && s'.cooks == s.cooks && s'.next == s.next
      && (s'.delivered == s.delivered
          || (d.bag != [] && Is(s.table, d.bag[0], Delivering) && s'.delivered == s.delivered + [d.bag[0]]))
      && (s'.deliv == s.deliv || (s.deliv != [] && s'.deliv == s.deliv[1..]))
  {
    assert DelStatusOK(s.table, s.dels[i]);
    hide FindOrder, FindTid, DelLocks, CookStatusOK, MgrStatusOK, Is, GoodConfig;
  }

  lemma StatusDelQuiet(c: Config, s: State, i: nat)
    requires StatusInv(s) && Shape(c, s) && DelCan(s, i) && !s.dels[i].pc.Lookup? && BagOK(s.dels[i])
    ensures StatusInv(DelDo(c, s, i))
  {
    hide DelDo, DelCan, DelStatusOK, CookStatusOK, MgrStatusOK, BagOK, Is, Shape;
    DelQuiet(c, s, i);
  }

  // ---------------------------------------------------------------- manager

  // A longer table says the same about the orders that were in it.
  lemma GrownIs(table: seq<Order>, longer: seq<Order>, id: int, st: Status)
    requires table <= longer && Is(table, id, st)
    ensures Is(longer, id, st)
  {
  }

  lemma GrownAll(table: seq<Order>, longer: seq<Order>, q: seq<int>, st: Status)
    requires table <= longer && AllAre(table, q, st)
    ensures AllAre(longer, q, st)
  {
    forall id | id in q ensures Is(longer, id, st) {
      assert Is(table, id, st);
      GrownIs(table, longer, id, st);
    }
  }

  lemma GrownDel(table: seq<Order>, longer: seq<Order>, d: Deliverer)
    requires table <= longer && DelStatusOK(table, d)
    ensures DelStatusOK(longer, d) && (d.pc == DelAsleep ==> DelStatusOK(longer, d.(pc := DelRelock)))
  {
  }

  lemma StatusMgrHand(c: Config, s: State)
    requires AllAre(s.table, s.ready, Cooked) && MgrStatusOK(s.table, s.mgr) && MgrCan(c, s)
    ensures MgrStatusOK(MgrDo(c, s).table, MgrDo(c, s).mgr)
  {
    assert s.mgr == Dequeue ==> s.ready[0] in s.ready;
    hide FindOrder, MgrLocks, WakeAll;
  }

  lemma StatusMgr(c: Config, s: State)
    requires TableInv(c, s) && StatusInv(s) && MgrCan(c, s)
    ensures StatusInv(MgrDo(c, s))
  {
    var s' := MgrDo(c, s);
    StatusMgrHand(c, s);
    assert s.table <= s'.table && (forall k :: |s.table| <= k < |s'.table| ==> s'.table[k].status == Waiting);
    assert s.mgr.Enqueue? ==> Is(s.table, s.mgr.id, Cooked);
    assert s'.deliv == if s.mgr.Enqueue? then s.deliv + [s.mgr.id] else s.deliv;
    assert s'.ready == s.ready || s'.ready == s.ready[1..];
    assert s'.dels == s.dels || s'.dels == WakeAll(s.dels);
    assert s'.cooks == s.cooks && s'.next == s.next && s'.delivered == s.delivered;
    hide MgrDo, MgrCan, TableInv, CookHolds, CookStage, DelStatusOK, Is, WakeAll;
    GrownAll(s.table, s'.table, s.ready, Cooked);
    GrownAll(s.table, s'.table, s.deliv, Cooked);
    GrownAll(s.table, s'.table, s.delivered, Delivering);
    if s.mgr.Enqueue? { GrownIs(s.table, s'.table, s.mgr.id, Cooked); }
    forall i: nat | i < |s.dels| ensures DelStatusOK(s'.table, s'.dels[i]) {
      GrownDel(s.table, s'.table, s.dels[i]);
    }
  }

  // ---------------------------------------------------------------- all steps

  lemma SpuriousDelKeeps(c: Config, s: State, i: nat)
    requires OrderInv(c, s) && i < |s.dels| && s.dels[i].pc == DelAsleep
    ensures OrderInv(c, s.(dels := s.dels[i := s.dels[i].(pc := DelRelock)]))
  {
    var e := s.dels[i].(pc := DelRelock);
    assert BagOK(s.dels[i]) && BagOK(e) && DelStatusOK(s.table, e);
    hide DelStatusOK, BagOK, AllAre, CookStatusOK, MgrStatusOK, TableInv, DelsHave, DelHas;
    forall x ensures Times(c.orders[..s.next], x) == Placed(c, s.(dels := s.dels[i := e]), x) {
      DelsUpdate(s.dels, i, e, x);
      assert DelHas(e, x) == DelHas(s.dels[i], x) by { NoHolder(s.dels[i], e, x); }
      assert Times(c.orders[..s.next], x) == Placed(c, s, x);
    }
  }

  lemma NoHolder(d: Deliverer, e: Deliverer, x: int)
    requires d.pc.DelAsleep? && e.pc.DelRelock?
    ensures !DelHas(d, x) && !DelHas(e, x)
  {
  }

  lemma OrderFrame(c: Config, s: State, s': State)
    requires OrderInv(c, s)
    requires s' == s.(main := s'.main) || (s.mgr == MgrAsleep && s' == s.(mgr := MgrRelock))
    ensures OrderInv(c, s')
  {
    hide AllAre, CookStatusOK, DelStatusOK, BagOK, CooksHave, DelsHave, Times, CookHolds, GoodConfig;
    forall x ensures Times(c.orders[..s'.next], x) == Placed(c, s', x) {
      assert Times(c.orders[..s.next], x) == Placed(c, s, x);
    }
  }

  lemma OrderStep(c: Config, s: State, l: Label, s': State)
    requires LockInv(s) && UnitsOK(s) && OrderInv(c, s) && Next(c, s, l, s')
    ensures OrderInv(c, s')
  {
    match l
    case Mgr => MgrOrder(c, s);
    case Cook(i) => CookOrder(c, s, i);
    case Del(i) => DelOrder(c, s, i);
    case SpuriousDel(i) => SpuriousDelKeeps(c, s, i);
    case _ =>
      hide OrderInv;
      OrderFrame(c, s, s');
  }

  lemma MgrOrder(c: Config, s: State)
    requires OrderInv(c, s) && MgrCan(c, s)
    ensures OrderInv(c, MgrDo(c, s))
  {
    MgrTableInv(c, s);
    MgrConserved(c, s);
    StatusMgr(c, s);
    hide TableInv, Conserved, StatusInv, MgrNext, MgrLocks, BagOK;
    forall i: nat | i < |s.dels| ensures BagOK(MgrDo(c, s).dels[i]) {
      assert BagOK(s.dels[i]);
      BagWake(s.dels[i]);
    }
  }

  lemma BagWake(d: Deliverer)
    requires BagOK(d)
    ensures d.pc == DelAsleep ==> BagOK(d.(pc := DelRelock))
  {
  }

  lemma CookOrder(c: Config, s: State, i: nat)
    requires LockInv(s) && UnitsOK(s) && OrderInv(c, s) && CookCan(s, i)
    ensures OrderInv(c, CookDo(s, i))
  {
    CookTableInv(c, s, i);
    CookConserved(c, s, i);
    StatusCook(c, s, i);
    hide LockInv, UnitsOK, TableInv, Conserved, StatusInv, BagOK, CookNext, CookLocks, CookTable;
  }

  lemma DelOrder(c: Config, s: State, i: nat)
    requires OrderInv(c, s) && Shape(c, s) && DelCan(s, i)
    ensures OrderInv(c, DelDo(c, s, i))
  {
    DelTableInv(c, s, i);
    DelConserved(c, s, i);
    StatusDel(c, s, i);
    hide *;
  }

  // ---------------------------------------------------------------- status only moves forward

  predicate Follows(now: Status, later: Status) {
    || (now == Waiting && later == Cooking)
    || (now == Cooking && later == Cooked)
    || (now == Cooked && later == Delivering)
  }

  predicate Forward(o: Order, p: Order) {
    p.id == o.id && (p.status == o.status || Follows(o.status, p.status))
  }

  lemma CookForward(c: Config, s: State, i: nat, k: nat)
    requires StatusInv(s) && CookCan(s, i) && k < |s.table|
    ensures Forward(s.table[k], CookDo(s, i).table[k])
  {
    assert CookStatusOK(s.table, s.cooks[i]);
    CookStages(s, s.cooks[i]);
    hide StatusInv, CookStage, CookHolds, CookNext, CookLocks;
  }

  lemma DelForward(c: Config, s: State, i: nat, k: nat)
    requires Shape(c, s) && DelCan(s, i) && k < |s.table|
    ensures Forward(s.table[k], DelDo(c, s, i).table[k])
  {
    hide FindOrder, FindTid, DelLocks, DelNext;
  }

  // No step skips a status, goes back, or changes an id.
  lemma StatusForward(c: Config, s: State, l: Label, s': State, k: nat)
    requires StatusInv(s) && Next(c, s, l, s') && k < |s.table|
    ensures k < |s'.table| && Forward(s.table[k], s'.table[k])
  {
    match l
    case Cook(i) =>
      CookForward(c, s, i, k);
      hide CookNext, CookLocks, StatusInv, Forward;
    case Del(i) =>
      DelForward(c, s, i, k);
      hide FindOrder, FindTid, DelLocks, DelNext, StatusInv, Forward;
    case _ =>
      hide StatusInv, MgrNext, MgrLocks, FindOrder, WakeAll;
  }
}
