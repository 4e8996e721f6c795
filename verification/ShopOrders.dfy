// Where the orders are: every claimed order is in exactly one place of the pipeline,
// and its status says which.
module ShopOrders {
  import opened Counting
  import opened Shop
  import opened ShopLocks

  // ---------------------------------------------------------------- who holds an order

  predicate CookHolds(pc: CookPc) {
    pc.FullUnlock? || pc.ShovelWait? || CookShovel(pc) || pc.ExitWait? || pc.ExitPost?
    || pc.CookedLock? || pc.SetCooked? || pc.CookedUnlock? || pc.ReadyLock? || pc.EnqueueReady?
  }

  // From taking an order off the delivery queue to putting it into arr.
  predicate DelCarries(pc: DelPc) {
    pc.TakePost? || pc.DUnlock? || pc.StatusLock? || pc.Lookup?
  }

  // With the order in arr[0], not delivered yet.
  predicate DelBagged(pc: DelPc) {
    pc.StatusUnlock? || pc.IfCounter? || pc.MotoWait? || pc.TallyWait? || pc.Tally? || pc.TallyPost? || pc.Deliver?
  }

  // How often a thread holds the order with id x.
  predicate CookHas(c: Config, pc: CookPc, x: int) {
    CookHolds(pc) && pc.cur < |c.orders| && c.orders[pc.cur] == x
  }

  predicate DelHas(d: Deliverer, x: int) {
    (DelCarries(d.pc) && d.pc.id == x) || (DelBagged(d.pc) && d.bag == [x])
  }

  predicate MgrHas(pc: MgrPc, x: int) {
    MgrHolding(pc) && pc.id == x
  }

  function CooksHave(c: Config, cooks: seq<CookPc>, x: int): nat {
    if cooks == [] then 0 else One(CookHas(c, cooks[0], x)) + CooksHave(c, cooks[1..], x)
  }

  function DelsHave(dels: seq<Deliverer>, x: int): nat {
    if dels == [] then 0 else One(DelHas(dels[0], x)) + DelsHave(dels[1..], x)
  }

  function Times(q: seq<int>, x: int): nat {
    multiset(q)[x]
  }

  // ---------------------------------------------------------------- conservation

  // How often the order with id x is somewhere between being claimed and delivered.
  function Placed(c: Config, s: State, x: int): nat {
    CooksHave(c, s.cooks, x) + Times(s.ready, x) + One(MgrHas(s.mgr, x)) + Times(s.deliv, x)
    + DelsHave(s.dels, x) + Times(s.delivered, x)
  }

  ghost predicate Conserved(c: Config, s: State) {
    s.next <= |c.orders| && forall x :: Times(c.orders[..s.next], x) == Placed(c, s, x)
  }

  // The table holds the orders as they were received, as far as they have been.
  predicate ReceiptInv(c: Config, s: State) {
    && |s.table| <= |c.orders| && (forall k :: 0 <= k < |s.table| ==> s.table[k].id == c.orders[k])
    && s.next <= s.ogc && |s.table| == s.ogc + (if s.mgr == Publish then 1 else 0)
    && (s.mgr == WriteOrder ==> |s.table| < |c.orders|)
    && (s.mgr == SetGlobal || s.mgr == InitCounter || !Reading(s.mgr) ==> s.ogc == |c.orders|)
  }

  // What the cooks hold has been claimed, and a cook about to claim has something to.
  predicate ClaimedInv(s: State) {
    && (forall i: nat :: i < |s.cooks| && CookHolds(s.cooks[i]) ==> s.cooks[i].cur < s.next)
    && (forall i: nat :: i < |s.cooks| && s.cooks[i] == TakeNext ==> s.next < s.ogc)
  }

  predicate TableInv(c: Config, s: State) {
    GoodConfig(c) && ReceiptInv(c, s) && ClaimedInv(s)
  }

  // arr is filled exactly while an order is being delivered, and only at 0.
  predicate BagOK(d: Deliverer) {
    |d.bag| == if DelBagged(d.pc) || d.pc == MotoPost then 1 else 0
  }

  predicate BagsInv(s: State) {
    forall i: nat :: i < |s.dels| ==> BagOK(s.dels[i])
  }

  // ---------------------------------------------------------------- status

  predicate BeforeOven(pc: CookPc) {
    pc.FullUnlock? || pc.ShovelWait? || pc.OvenWait? || pc.EntranceWait? || pc.CookingLock? || pc.SetCooking?
  }

  predicate AfterOven(pc: CookPc) {
    pc.CookedUnlock? || pc.ReadyLock? || pc.EnqueueReady?
  }

  function CookStage(pc: CookPc): Status {
    if BeforeOven(pc) then Waiting else if AfterOven(pc) then Cooked else Cooking
  }

  // The order with this id has this status.
  predicate Is(table: seq<Order>, id: int, st: Status) {
    Order(id, st) in table
  }

  predicate AllAre(table: seq<Order>, q: seq<int>, st: Status) {
    forall id :: id in q ==> Is(table, id, st)
  }

  predicate CookStatusOK(table: seq<Order>, pc: CookPc) {
    CookHolds(pc) ==> pc.cur < |table| && table[pc.cur].status == CookStage(pc)
  }

  predicate MgrStatusOK(table: seq<Order>, pc: MgrPc) {
    MgrHolding(pc) ==> Is(table, pc.id, Cooked)
  }

  predicate DelStatusOK(table: seq<Order>, d: Deliverer) {
    && (DelCarries(d.pc) ==> Is(table, d.pc.id, Cooked))
    && (DelBagged(d.pc) && |d.bag| == 1 ==> Is(table, d.bag[0], Delivering))
  }

  predicate StatusInv(s: State) {
    && (forall k: nat :: s.next <= k < |s.table| ==> s.table[k].status == Waiting)
    && (forall i: nat :: i < |s.cooks| ==> CookStatusOK(s.table, s.cooks[i]))
    && AllAre(s.table, s.ready, Cooked)
    && MgrStatusOK(s.table, s.mgr)
    && AllAre(s.table, s.deliv, Cooked)
    && (forall i: nat :: i < |s.dels| ==> DelStatusOK(s.table, s.dels[i]))
    && AllAre(s.table, s.delivered, Delivering)
  }

  ghost predicate OrderInv(c: Config, s: State) {
    TableInv(c, s) && Conserved(c, s) && BagsInv(s) && StatusInv(s)
  }

  // ---------------------------------------------------------------- bookkeeping lemmas

  lemma {:induction false} CooksUpdate(c: Config, cooks: seq<CookPc>, i: nat, q: CookPc, x: int)
    requires i < |cooks|
    ensures CooksHave(c, cooks[i := q], x)
      == CooksHave(c, cooks, x) - One(CookHas(c, cooks[i], x)) + One(CookHas(c, q, x))
  {
    hide CookHas;
    if i == 0 {
      assert cooks[0 := q][1..] == cooks[1..];
    } else {
      CooksUpdate(c, cooks[1..], i - 1, q, x);
      assert cooks[i := q][1..] == cooks[1..][i - 1 := q];
    }
  }

  lemma {:induction false} DelsUpdate(dels: seq<Deliverer>, i: nat, e: Deliverer, x: int)
    requires i < |dels|
    ensures DelsHave(dels[i := e], x) == DelsHave(dels, x) - One(DelHas(dels[i], x)) + One(DelHas(e, x))
  {
    hide DelHas;
    if i == 0 {
      assert dels[0 := e][1..] == dels[1..];
    } else {
      DelsUpdate(dels[1..], i - 1, e, x);
      assert dels[i := e][1..] == dels[1..][i - 1 := e];
    }
  }

  lemma {:induction false} DelsWake(dels: seq<Deliverer>, x: int)
    ensures DelsHave(WakeAll(dels), x) == DelsHave(dels, x)
  {
    if dels == [] {
    } else {
      DelsWake(dels[1..], x);
      assert WakeAll(dels)[1..] == WakeAll(dels[1..]);
    }
  }

  lemma {:induction false} CooksHaveOne(c: Config, cooks: seq<CookPc>, i: nat, x: int)
    requires i < |cooks| && CookHas(c, cooks[i], x)
    ensures CooksHave(c, cooks, x) >= 1
  {
    hide CookHas;
    if i == 0 {
    } else {
      CooksHaveOne(c, cooks[1..], i - 1, x);
    }
  }

  lemma {:induction false} CooksHaveTwo(c: Config, cooks: seq<CookPc>, i: nat, j: nat, x: int)
    requires i < j < |cooks| && CookHas(c, cooks[i], x) && CookHas(c, cooks[j], x)
    ensures CooksHave(c, cooks, x) >= 2
  {
    hide CookHas;
    if i > 0 {
      CooksHaveTwo(c, cooks[1..], i - 1, j - 1, x);
    } else {
      CooksHaveOne(c, cooks[1..], j - 1, x);
    }
  }

  lemma {:induction false} DelsHaveOne(dels: seq<Deliverer>, i: nat, x: int)
    requires i < |dels| && DelHas(dels[i], x)
    ensures DelsHave(dels, x) >= 1
  {
    hide DelHas;
    if i == 0 {
    } else {
      DelsHaveOne(dels[1..], i - 1, x);
    }
  }

  lemma {:induction false} DelsHaveTwo(dels: seq<Deliverer>, i: nat, j: nat, x: int)
    requires i < j < |dels| && DelHas(dels[i], x) && DelHas(dels[j], x)
    ensures DelsHave(dels, x) >= 2
  {
    hide DelHas;
    if i > 0 {
      DelsHaveTwo(dels[1..], i - 1, j - 1, x);
    } else {
      DelsHaveOne(dels[1..], j - 1, x);
    }
  }

  lemma {:induction false} DistinctOnce(ids: seq<int>, x: int)
    requires forall i, j :: 0 <= i < j < |ids| ==> ids[i] != ids[j]
    ensures Times(ids, x) <= 1
  {
    if ids == [] {
    } else {
      var n := |ids| - 1;
      DistinctOnce(ids[..n], x);
      assert ids == ids[..n] + [ids[n]];
      if ids[n] == x {
        assert x !in ids[..n];
      }
    }
  }

  lemma SameIndex(c: Config, j: nat, k: nat)
    requires GoodConfig(c) && j < |c.orders| && k < |c.orders| && c.orders[j] == c.orders[k]
    ensures j == k
  {
  }

  // No order is in two places.
  lemma Once(c: Config, s: State, x: int)
    requires GoodConfig(c) && Conserved(c, s)
    ensures Placed(c, s, x) <= 1
  {
    DistinctOnce(c.orders[..s.next], x);
    hide Placed;
  }

  // An order that is somewhere has been claimed.
  lemma PlacedIsClaimed(c: Config, s: State, x: int) returns (k: nat)
    requires Conserved(c, s) && Placed(c, s, x) >= 1
    ensures k < s.next && c.orders[k] == x
  {
    hide Placed;
    assert Times(c.orders[..s.next], x) >= 1;
    assert x in c.orders[..s.next];
    k :| k < s.next && c.orders[k] == x;
  }
}
