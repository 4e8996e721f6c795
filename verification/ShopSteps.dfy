// Every step keeps the orders where they belong.
module ShopSteps {
  import opened Counting
  import opened Shop
  import opened ShopLocks
  import opened ShopOrders

  lemma OrderInit(c: Config, s: State)
    requires Init(c, s)
    ensures OrderInv(c, s)
  {
    forall x ensures Placed(c, s, x) == 0 {
      NoCookHolds(c, s.cooks, x);
      NoDelHolds(s.dels, x);
    }
    assert c.orders[..0] == [];
    hide Placed;
  }

  lemma {:induction false} NoCookHolds(c: Config, cooks: seq<CookPc>, x: int)
    requires forall i :: 0 <= i < |cooks| ==> !CookHolds(cooks[i])
    ensures CooksHave(c, cooks, x) == 0
  {
    if cooks == [] {
    } else {
      NoCookHolds(c, cooks[1..], x);
    }
  }

  lemma {:induction false} NoDelHolds(dels: seq<Deliverer>, x: int)
    requires forall i :: 0 <= i < |dels| ==> !DelCarries(dels[i].pc) && !DelBagged(dels[i].pc)
    ensures DelsHave(dels, x) == 0
  {
    if dels == [] {
    } else {
      NoDelHolds(dels[1..], x);
    }
  }

  lemma TimesAppend(q: seq<int>, y: int, x: int)
    ensures Times(q + [y], x) == Times(q, x) + One(x == y)
  {
  }

  lemma TimesTail(q: seq<int>, x: int)
    requires q != []
    ensures Times(q, x) == One(x == q[0]) + Times(q[1..], x)
  {
    assert q == [q[0]] + q[1..];
  }

  // ---------------------------------------------------------------- cooks

  // Two cooks are never both in the section that claims an order.
  lemma OneClaims(s: State, i: nat, j: nat)
    requires LockInv(s) && s.locks.full >= 0 && i < |s.cooks| && j < |s.cooks| && i != j
    requires CookFull(s.cooks[i])
    ensures !CookFull(s.cooks[j])
  {
    if CookFull(s.cooks[j]) {
      CountTwo(CookFull, s.cooks, if i < j then i else j, if i < j then j else i);
    }
  }

  // What a cook's step does, but for the locks.
  lemma CookEffect(s: State, i: nat)
    requires CookCan(s, i)
    ensures var s', pc := CookDo(s, i), s.cooks[i];
      && |s'.cooks| == |s.cooks| && s'.cooks == s.cooks[i := CookNext(s, pc)]
      && |s'.table| == |s.table| && (forall k :: 0 <= k < |s.table| ==> s'.table[k].id == s.table[k].id)
      && s'.next == s.next + One(pc == TakeNext) && s'.ogc == s.ogc && s'.noMore == s.noMore
      && |s'.ready| == |s.ready| + One(pc.EnqueueReady?) && s'.deliv == s.deliv
      && s'.dels == s.dels && s'.main == s.main
      && s'.mgr == if pc == SignalConsume && s.mgr == MgrAsleep then MgrRelock else s.mgr
  {
    hide CookNext, CookLocks;
  }

  lemma CookClaims(s: State, pc: CookPc)
    ensures var q := CookNext(s, pc);
      && (CookHolds(q) <==> pc == TakeNext || (CookHolds(pc) && !pc.EnqueueReady?))
      && (CookHolds(q) ==> q.cur == if pc == TakeNext then s.next else pc.cur)
      && (q == TakeNext ==> s.next < s.ogc)
  {
  }

  lemma CookReceipt(c: Config, s: State, i: nat)
    requires ReceiptInv(c, s) && ClaimedInv(s) && CookCan(s, i)
    ensures ReceiptInv(c, CookDo(s, i))
  {
    CookEffect(s, i);
    assert s.cooks[i] == TakeNext ==> s.next < s.ogc;
    hide CookDo, CookCan, CookNext, ClaimedInv;
  }

  lemma CookClaimed(s: State, i: nat)
    requires LockInv(s) && UnitsOK(s) && ClaimedInv(s) && CookCan(s, i)
    ensures ClaimedInv(CookDo(s, i))
  {
    CookEffect(s, i);
    CookClaims(s, s.cooks[i]);
    forall j: nat | j < |s.cooks| && j != i && s.cooks[i] == TakeNext ensures s.cooks[j] != TakeNext {
      OneClaims(s, i, j);
    }
    hide LockInv, UnitsOK, CookDo, CookCan, CookNext, CookHolds;
  }

  lemma CookTableInv(c: Config, s: State, i: nat)
    requires LockInv(s) && UnitsOK(s) && TableInv(c, s) && CookCan(s, i)
    ensures TableInv(c, CookDo(s, i))
  {
    hide LockInv, UnitsOK, ReceiptInv, ClaimedInv, CookDo;
    CookReceipt(c, s, i);
    CookClaimed(s, i);
  }

  // What a cook holds changes only when it claims an order or hands one over.
  lemma CookMoves(c: Config, s: State, i: nat, x: int)
    requires TableInv(c, s) && CookCan(s, i)
    ensures var pc, q := s.cooks[i], CookNext(s, s.cooks[i]);
      One(CookHas(c, q, x)) == One(CookHas(c, pc, x))
        + (if pc == TakeNext then One(c.orders[s.next] == x) else 0)
        - (if pc.EnqueueReady? then One(c.orders[pc.cur] == x) else 0)
  {
    CookClaims(s, s.cooks[i]);
    assert s.cooks[i] == TakeNext ==> s.next < |c.orders|;
    assert CookHolds(s.cooks[i]) ==> s.cooks[i].cur < |c.orders|;
    hide CookNext, CookCan, TableInv;
  }

  // What it claims and hands over.
  lemma CookQueues(c: Config, s: State, i: nat)
    requires TableInv(c, s) && CookCan(s, i)
    ensures var s', pc := CookDo(s, i), s.cooks[i];
      && s'.next <= |c.orders|
      && (if pc == TakeNext then c.orders[..s'.next] == c.orders[..s.next] + [c.orders[s.next]] else s'.next == s.next)
      && s'.ready == (if pc.EnqueueReady? then s.ready + [c.orders[pc.cur]] else s.ready)
      && s'.deliv == s.deliv && s'.dels == s.dels && s'.delivered == s.delivered
      && MgrHolding(s'.mgr) == MgrHolding(s.mgr) && (MgrHolding(s.mgr) ==> s'.mgr == s.mgr)
  {
    hide CookNext, CookLocks, CookTable;
  }

  lemma CookConserved(c: Config, s: State, i: nat)
    requires TableInv(c, s) && Conserved(c, s) && CookCan(s, i)
    ensures Conserved(c, CookDo(s, i))
  {
    var s' := CookDo(s, i);
    var pc, q := s.cooks[i], CookNext(s, s.cooks[i]);
    CookQueues(c, s, i);
    assert s'.cooks == s.cooks[i := q];
    hide TableInv, CookDo, CookCan, CookNext, CookHas, CooksHave, DelsHave, MgrHolding;
    forall x ensures Times(c.orders[..s'.next], x) == Placed(c, s', x) {
      CooksUpdate(c, s.cooks, i, q, x);
      CookMoves(c, s, i, x);
      assert Times(c.orders[..s.next], x) == Placed(c, s, x);
      if pc == TakeNext { TimesAppend(c.orders[..s.next], c.orders[s.next], x); }
      if pc.EnqueueReady? { TimesAppend(s.ready, c.orders[pc.cur], x); }
      hide Times;
    }
  }

  // ---------------------------------------------------------------- deliverers

  // A carried order is found, where its id says and nowhere else.
  lemma LookupFinds(c: Config, s: State, i: nat) returns (k: nat)
    requires OrderInv(c, s) && i < |s.dels| && s.dels[i].pc.Lookup?
    ensures Found(s, s.dels[i].pc) == Some(k) && k < s.next && c.orders[k] == s.dels[i].pc.id
  {
    var id := s.dels[i].pc.id;
    DelsHaveOne(s.dels, i, id);
    k := PlacedIsClaimed(c, s, id);
    assert DelStatusOK(s.table, s.dels[i]);
    var j: nat :| j < |s.table| && s.table[j] == Order(id, Cooked);
    SameIndex(c, j, k);
    hide StatusInv, Conserved;
    var r := FindOrder(s.table, s.ogc, id, Some(Cooked));
    SameIndex(c, r.value, k);
  }

  lemma DelBagStep(c: Config, s: State, i: nat)
    requires OrderInv(c, s) && DelCan(s, i)
    ensures var d := s.dels[i];
      DelBag(s, d) == if d.pc.Lookup? then [d.pc.id] else if d.pc == MotoPost then [] else d.bag
  {
    if s.dels[i].pc.Lookup? {
      var k := LookupFinds(c, s, i);
    }
    assert BagOK(s.dels[i]);
    hide OrderInv, FindOrder;
  }

  lemma DelMoves(s: State, d: Deliverer, e: Deliverer, x: int)
    requires BagOK(d) && (d.pc == Take ==> s.deliv != []) && e.pc == DelNext(s, d)
    requires e.bag == if d.pc.Lookup? then [d.pc.id] else if d.pc == MotoPost then [] else d.bag
    ensures BagOK(e)
    ensures One(DelHas(e, x)) == One(DelHas(d, x))
      + (if d.pc == Take then One(s.deliv[0] == x) else 0) - (if d.pc == Deliver then One(d.bag[0] == x) else 0)
  {
  }

  // What a deliverer's step does, but for the locks.
  lemma DelEffect(c: Config, s: State, i: nat)
    requires Shape(c, s) && DelCan(s, i)
    ensures var s', d := DelDo(c, s, i), s.dels[i];
      && |s'.dels| == |s.dels| && s'.dels == s.dels[i := s'.dels[i]] && s'.dels[i].pc == DelNext(s, d)
      && s'.dels[i].bag == DelBag(s, d) && (d.pc == Take ==> s.deliv != [])
      && s'.deliv == (if d.pc == Take then s.deliv[1..] else s.deliv)
      && s'.delivered == (if d.pc == Deliver then s.delivered + [d.bag[0]] else s.delivered)
      && |s'.deliv| == |s.deliv| - One(d.pc == Take) && |s'.table| == |s.table| && s'.cooks == s.cooks
      && s'.next == s.next && s'.ogc == s.ogc && s'.noMore == s.noMore && s'.ready == s.ready && s'.mgr == s.mgr
      && s'.main == s.main && s'.counter == s.counter
  {
    hide DelNext, DelLocks, DelBag, FindTid, FindOrder, GoodConfig;
  }

  lemma DelConserved(c: Config, s: State, i: nat)
    requires OrderInv(c, s) && Shape(c, s) && DelCan(s, i)
    ensures Conserved(c, DelDo(c, s, i)) && BagsInv(DelDo(c, s, i))
  {
    var s' := DelDo(c, s, i);
    var d, e := s.dels[i], s'.dels[i];
    DelBagStep(c, s, i);
    assert BagOK(d);
    DelEffect(c, s, i);
    hide DelDo, DelCan, DelNext, DelBag, DelHas, DelsHave, StatusInv, TableInv, BagOK, Shape;
    DelMoves(s, d, e, 0);
    forall x ensures Times(c.orders[..s'.next], x) == Placed(c, s', x) {
      DelsUpdate(s.dels, i, e, x);
      DelMoves(s, d, e, x);
      assert Times(c.orders[..s.next], x) == Placed(c, s, x);
      if d.pc == Take { TimesTail(s.deliv, x); }
      if d.pc == Deliver { TimesAppend(s.delivered, d.bag[0], x); }
      hide Times;
    }
  }

  lemma DelTableInv(c: Config, s: State, i: nat)
    requires TableInv(c, s) && Shape(c, s) && DelCan(s, i)
    ensures TableInv(c, DelDo(c, s, i))
  {
    hide DelNext, DelLocks, DelBag, FindTid, CookHolds;
  }

  // ---------------------------------------------------------------- manager

  // While it reads, the manager goes round Read, WriteOrder and Publish.
  lemma MgrReads(c: Config, s: State)
    requires MgrCan(c, s)
    ensures var q := MgrNext(c, s);
      && (q == Publish <==> s.mgr == WriteOrder)
      && (q == WriteOrder ==> |s.table| < |c.orders|)
      && (q == InitCounter <==> s.mgr == SetGlobal)
      && (q == SetGlobal ==> s.mgr == Read && |s.table| >= |c.orders|)
      && (!Reading(q) ==> s.mgr == InitCounter || !Reading(s.mgr))
  {
    hide FindOrder;
  }

  lemma MgrReceipt(c: Config, s: State)
    requires ReceiptInv(c, s) && MgrCan(c, s)
    ensures ReceiptInv(c, MgrDo(c, s)) && s.ogc <= MgrDo(c, s).ogc
  {
    MgrReads(c, s);
    assert s.mgr == WriteOrder ==> |s.table| < |c.orders|;
    assert Reading(SetGlobal) && Reading(WriteOrder) && Reading(Publish);
    hide MgrNext, MgrLocks, WakeAll, Reading;
  }

  lemma MgrTableInv(c: Config, s: State)
    requires TableInv(c, s) && MgrCan(c, s)
    ensures TableInv(c, MgrDo(c, s))
  {
    MgrReceipt(c, s);
    hide ReceiptInv, MgrNext, MgrLocks, WakeAll, CookHolds;
  }

  // The forwarding loop finds the order it has dequeued.
  lemma SearchFinds(c: Config, s: State)
    requires TableInv(c, s) && Conserved(c, s) && s.mgr.Search?
    ensures FindOrder(s.table, s.ogc, s.mgr.id, None).Some?
  {
    var k := PlacedIsClaimed(c, s, s.mgr.id);
    assert s.table[k].id == s.mgr.id;
  }

  lemma MgrMoves(c: Config, s: State, x: int)
    requires MgrCan(c, s) && (s.mgr.Search? ==> FindOrder(s.table, s.ogc, s.mgr.id, None).Some?)
    ensures One(MgrHas(MgrNext(c, s), x)) == One(MgrHas(s.mgr, x))
      + (if s.mgr == Dequeue then One(s.ready[0] == x) else 0) - (if s.mgr.Enqueue? then One(s.mgr.id == x) else 0)
  {
    hide FindOrder;
  }

  lemma MgrConserved(c: Config, s: State)
    requires TableInv(c, s) && Conserved(c, s) && MgrCan(c, s)
    ensures Conserved(c, MgrDo(c, s))
  {
    var s' := MgrDo(c, s);
    if s.mgr.Search? { SearchFinds(c, s); }
    hide MgrNext, MgrLocks, WakeAll, MgrHas, TableInv, DelsHave, FindOrder;
    forall x ensures Times(c.orders[..s'.next], x) == Placed(c, s', x) {
      MgrMoves(c, s, x);
      DelsWake(s.dels, x);
      assert Times(c.orders[..s.next], x) == Placed(c, s, x);
      if s.mgr == Dequeue { TimesTail(s.ready, x); }
      if s.mgr.Enqueue? { TimesAppend(s.deliv, s.mgr.id, x); }
      hide Times;
    }
  }
}
