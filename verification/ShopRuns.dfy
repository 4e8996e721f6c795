// What holds in every run of the shop.
module ShopRuns {
  import opened Counting
  import opened Shop
  import opened ShopLocks
  import opened ShopOrders
  import opened ShopSteps
  import opened ShopStatus
  import opened ShopCounts
  import opened ShopWake

  // ---------------------------------------------------------------- main's joins

  predicate JoinInv(s: State) {
    && (s.main != JoinManager ==> s.mgr == MgrReturned)
    && (s.main.JoinCook? ==> s.main.i <= |s.cooks| && forall j: nat :: j < s.main.i ==> s.cooks[j] == CookReturned)
    && (!s.main.JoinManager? && !s.main.JoinCook? ==> forall j: nat :: j < |s.cooks| ==> s.cooks[j] == CookReturned)
    && (s.main.JoinDeliverer? ==> s.main.i <= |s.dels| && forall j: nat :: j < s.main.i ==> s.dels[j].pc == DelReturned)
    && (s.main.SendServed? || s.main.Served? ==> forall j: nat :: j < |s.dels| ==> s.dels[j].pc == DelReturned)
  }

  // A thread that has returned does not come back, and main goes on only past those that
  // have.
  lemma JoinMgr(c: Config, s: State)
    requires JoinInv(s) && MgrCan(c, s)
    ensures JoinInv(MgrDo(c, s))
  {
    assert s.mgr != MgrReturned && s.main == JoinManager;
    hide MgrNext, MgrLocks, WakeAll;
  }

  lemma JoinCooks(s: State, i: nat)
    requires JoinInv(s) && CookCan(s, i)
    ensures JoinInv(CookDo(s, i))
  {
    assert s.cooks[i] != CookReturned;
    hide CookNext, CookLocks, CookTable;
  }

  lemma JoinDels(c: Config, s: State, i: nat)
    requires JoinInv(s) && Shape(c, s) && DelCan(s, i)
    ensures JoinInv(DelDo(c, s, i))
  {
    assert s.dels[i].pc != DelReturned;
    hide DelNext, DelLocks, DelBag, Found, FindTid, GoodConfig;
  }

  lemma JoinStep(c: Config, s: State, l: Label, s': State)
    requires JoinInv(s) && Next(c, s, l, s')
    ensures JoinInv(s')
  {
    hide MgrDo, CookDo, DelDo, GoodConfig;
    match l
    case Mgr => JoinMgr(c, s);
    case Cook(i) => JoinCooks(s, i);
    case Del(i) => JoinDels(c, s, i);
    case _ =>
  }

  // ---------------------------------------------------------------- the invariant

  ghost predicate Inv(c: Config, s: State) {
    && Shape(c, s) && LockInv(s) && UnitsOK(s) && OrderInv(c, s) && CountInv(s) && PhaseInv(c, s) && WakeInv(s)
    && JoinInv(s)
  }

  lemma InvInit(c: Config, s: State)
    requires Init(c, s)
    ensures Inv(c, s)
  {
    LockInit(c, s);
    OrderInit(c, s);
    CountInit(c, s);
    WakeInit(c, s);
    hide LockInv, OrderInv, CountInv, PhaseInv, WakeInv;
  }

  lemma ShapeStep(c: Config, s: State, l: Label, s': State)
    requires Next(c, s, l, s')
    ensures Shape(c, s')
  {
    hide GoodConfig, MgrNext, MgrLocks, CookNext, CookLocks, CookTable, DelNext, DelLocks, DelBag, Found, FindTid;
  }

  lemma InvStep(c: Config, s: State, l: Label, s': State)
    requires Inv(c, s) && Next(c, s, l, s')
    ensures Inv(c, s')
  {
    hide LockInv, UnitsOK, OrderInv, CountInv, PhaseInv, WakeInv, JoinInv, Next;
    ShapeStep(c, s, l, s');
    LockStep(c, s, l, s');
    UnitsStep(c, s, l, s');
    OrderStep(c, s, l, s');
    CountStep(c, s, l, s');
    WakeStep(c, s, l, s');
    JoinStep(c, s, l, s');
  }

  lemma {:induction false} RunSafe(c: Config, run: seq<State>, ls: seq<Label>, k: nat)
    requires IsRun(c, run, ls) && k <= |ls|
    ensures Inv(c, run[k])
  {
    hide Inv, Next, Init;
    if k == 0 {
      InvInit(c, run[0]);
    } else {
      RunSafe(c, run, ls, k - 1);
      assert Next(c, run[k - 1], ls[k - 1], run[k - 1 + 1]);
      InvStep(c, run[k - 1], ls[k - 1], run[k]);
    }
  }

  // ---------------------------------------------------------------- one place for every order

  lemma AtMostOnce(ids: seq<int>, k: nat)
    requires k < |ids| && forall i, j :: 0 <= i < j < |ids| ==> ids[i] != ids[j]
    ensures Times(ids, ids[k]) == 1
  {
    DistinctOnce(ids, ids[k]);
    assert ids[k] in multiset(ids);
  }

  // The order received k-th is in exactly one place once a cook has claimed it, in none
  // of them before, and there is nothing in the pipeline but orders.
  lemma OnePlace(c: Config, run: seq<State>, ls: seq<Label>, n: nat, x: int)
    requires IsRun(c, run, ls) && n <= |ls|
    ensures run[n].next <= |c.orders|
    ensures Placed(c, run[n], x) == One(x in c.orders[..run[n].next])
    ensures Placed(c, run[n], x) + One(x in c.orders[run[n].next..]) == One(x in c.orders)
  {
    hide Next, Init, Inv, TableInv, OrderInv, Placed, BagsInv, DelWakeInv, MgrWakeInv, CookUnits, DelUnits, SharedUnits;
    RunSafe(c, run, ls, n);
    var s := run[n];
    Parts(c, s);
    assert Times(c.orders[..s.next], x) == Placed(c, s, x);
    if x in c.orders[..s.next] {
      var k: nat :| k < s.next && c.orders[k] == x;
      AtMostOnce(c.orders[..s.next], k);
    }
    if x in c.orders[s.next..] {
      var j: nat :| s.next <= j < |c.orders| && c.orders[j] == x;
    }
  }

  // ---------------------------------------------------------------- status is place

  lemma {:induction false} SomeCookHas(c: Config, cooks: seq<CookPc>, x: int)
    requires CooksHave(c, cooks, x) >= 1
    ensures exists i: nat :: i < |cooks| && CookHas(c, cooks[i], x)
  {
    hide CookHas;
    if CookHas(c, cooks[0], x) {
      assert CookHas(c, cooks[0], x);
    } else {
      SomeCookHas(c, cooks[1..], x);
      var i: nat :| i < |cooks[1..]| && CookHas(c, cooks[1..][i], x);
      assert CookHas(c, cooks[i + 1], x);
    }
  }

  lemma {:induction false} SomeDelHas(dels: seq<Deliverer>, x: int)
    requires DelsHave(dels, x) >= 1
    ensures exists i: nat :: i < |dels| && DelHas(dels[i], x)
  {
    hide DelHas;
    if DelHas(dels[0], x) {
      assert DelHas(dels[0], x);
    } else {
      SomeDelHas(dels[1..], x);
      var i: nat :| i < |dels[1..]| && DelHas(dels[1..][i], x);
      assert DelHas(dels[i + 1], x);
    }
  }

  predicate WithCook(c: Config, s: State, x: int, st: Status) {
    exists i: nat :: i < |s.cooks| && CookHas(c, s.cooks[i], x) && CookStage(s.cooks[i]) == st
  }

  predicate Carried(s: State, x: int) {
    exists i: nat :: i < |s.dels| && DelCarries(s.dels[i].pc) && s.dels[i].pc.id == x
  }

  predicate Bagged(s: State, x: int) {
    exists i: nat :: i < |s.dels| && DelBagged(s.dels[i].pc) && s.dels[i].bag == [x]
  }

  // Where the k-th order may be when its status is st.
  predicate PlaceFor(c: Config, s: State, k: nat, st: Status)
    requires k < |c.orders|
  {
    var x := c.orders[k];
    || WithCook(c, s, x, st)
    || (st == Waiting && k >= s.next)
    || (st == Cooked && (x in s.ready || MgrHas(s.mgr, x) || x in s.deliv || Carried(s, x)))
    || (st == Delivering && (Bagged(s, x) || x in s.delivered))
  }

  lemma IsAt(c: Config, s: State, k: nat, st: Status)
    requires TableInv(c, s) && k < |s.table| && Is(s.table, c.orders[k], st)
    ensures s.table[k].status == st
  {
    var j: nat :| j < |s.table| && s.table[j] == Order(c.orders[k], st);
    SameIndex(c, j, k);
  }

  lemma PlaceGivesStatus(c: Config, s: State, k: nat, st: Status)
    requires TableInv(c, s) && StatusInv(s) && k < |s.table| && PlaceFor(c, s, k, st)
    ensures s.table[k].status == st
  {
    var x := c.orders[k];
    if WithCook(c, s, x, st) {
      var i: nat :| i < |s.cooks| && CookHas(c, s.cooks[i], x) && CookStage(s.cooks[i]) == st;
      assert CookStatusOK(s.table, s.cooks[i]);
      SameIndex(c, s.cooks[i].cur, k);
    } else if k < s.next {
      assert Is(s.table, x, st) by {
        if st == Cooked && Carried(s, x) {
          var i: nat :| i < |s.dels| && DelCarries(s.dels[i].pc) && s.dels[i].pc.id == x;
          assert DelStatusOK(s.table, s.dels[i]);
        }
        if st == Delivering && Bagged(s, x) {
          var i: nat :| i < |s.dels| && DelBagged(s.dels[i].pc) && s.dels[i].bag == [x];
          assert DelStatusOK(s.table, s.dels[i]);
        }
        hide TableInv, Is;
      }
      hide StatusInv, PlaceFor;
      IsAt(c, s, k, st);
    }
  }

  lemma SomePlace(c: Config, s: State, k: nat) returns (st: Status)
    requires TableInv(c, s) && Conserved(c, s) && k < |s.table|
    ensures PlaceFor(c, s, k, st)
  {
    var x := c.orders[k];
    hide TableInv, CookHolds, CookStage, DelCarries, DelBagged, MgrHolding;
    if k >= s.next {
      st := Waiting;
    } else {
      assert x in c.orders[..s.next];
      assert Times(c.orders[..s.next], x) >= 1;
      assert Placed(c, s, x) >= 1;
      if CooksHave(c, s.cooks, x) >= 1 {
        SomeCookHas(c, s.cooks, x);
        var i: nat :| i < |s.cooks| && CookHas(c, s.cooks[i], x);
        st := CookStage(s.cooks[i]);
      } else if DelsHave(s.dels, x) >= 1 {
        SomeDelHas(s.dels, x);
        var i: nat :| i < |s.dels| && DelHas(s.dels[i], x);
        st := if DelCarries(s.dels[i].pc) && s.dels[i].pc.id == x then Cooked else Delivering;
      } else {
        st := if x in s.delivered then Delivering else Cooked;
      }
    }
  }

  // An order's status is st exactly when it is in a place for st.
  lemma StatusIsPlace(c: Config, run: seq<State>, ls: seq<Label>, n: nat, k: nat, st: Status)
    requires IsRun(c, run, ls) && n <= |ls| && k < |run[n].table|
    ensures k < |c.orders| && run[n].table[k].id == c.orders[k]
    ensures run[n].table[k].status == st <==> PlaceFor(c, run[n], k, st)
  {
    RunSafe(c, run, ls, n);
    var s := run[n];
    assert TableInv(c, s) && StatusInv(s) && Conserved(c, s);
    hide IsRun, Inv, StatusInv, Conserved, PlaceFor, GoodConfig;
    var at := SomePlace(c, s, k);
    PlaceGivesStatus(c, s, k, at);
    if PlaceFor(c, s, k, st) { PlaceGivesStatus(c, s, k, st); }
  }

  // From one state to the next an order keeps its id, and its status stays or moves on
  // by one.
  lemma StatusMovesOn(c: Config, run: seq<State>, ls: seq<Label>, n: nat, k: nat)
    requires IsRun(c, run, ls) && n < |ls| && k < |run[n].table|
    ensures k < |run[n + 1].table| && Forward(run[n].table[k], run[n + 1].table[k])
  {
    assert Next(c, run[n], ls[n], run[n + 1]);
    hide IsRun, Next, Forward;
    StatusKnown(c, run, ls, n);
    StatusForward(c, run[n], ls[n], run[n + 1], k);
  }

  function Age(st: Status): nat {
    match st
    case Waiting => 0
    case Cooking => 1
    case Cooked => 2
    case Delivering => 3
  }

  // An order in the table stays there under its id, and never gets an earlier status.
  lemma {:induction false} StatusNeverGoesBack(c: Config, run: seq<State>, ls: seq<Label>, m: nat, n: nat, k: nat)
    requires IsRun(c, run, ls) && m <= n <= |ls| && k < |run[m].table|
    ensures k < |run[n].table| && run[n].table[k].id == run[m].table[k].id
    ensures Age(run[m].table[k].status) <= Age(run[n].table[k].status)
  {
    hide Next, Init, Age, Forward;
    if m == n {
    } else {
      StatusNeverGoesBack(c, run, ls, m, n - 1, k);
      StatusMovesOn(c, run, ls, n - 1, k);
      Older(run[n - 1].table[k], run[n].table[k]);
    }
  }

  lemma StatusKnown(c: Config, run: seq<State>, ls: seq<Label>, n: nat)
    requires IsRun(c, run, ls) && n <= |ls|
    ensures StatusInv(run[n])
  {
    hide IsRun;
    RunSafe(c, run, ls, n);
  }

  lemma Older(o: Order, p: Order)
    requires Forward(o, p)
    ensures p.id == o.id && Age(o.status) <= Age(p.status)
  {
  }

  // ---------------------------------------------------------------- no fault, no needless wait

  // Nothing is dequeued from an empty queue, no index is out of its array, and both
  // lookups by id find the order.
  lemma NoFault(c: Config, run: seq<State>, ls: seq<Label>, n: nat)
    requires IsRun(c, run, ls) && n <= |ls|
    ensures var s := run[n];
      && s.ogc <= |s.table| <= MAX_ORDER
      && (s.mgr == WriteOrder ==> |s.table| < |c.orders|)
      && (s.mgr == Dequeue ==> s.ready != [])
      && (s.mgr.Search? ==> FindOrder(s.table, s.ogc, s.mgr.id, None).Some?)
      && (forall i: nat :: i < |s.cooks| && CookHolds(s.cooks[i]) ==> s.cooks[i].cur < |s.table|)
      && (forall i: nat :: i < |s.dels| ==> DelSafe(s, s.dels[i]))
  {
    hide Next, Init, Inv, OrderInv, Conserved, BagsInv, DelWakeInv, DelSafe, FindOrder;
    RunSafe(c, run, ls, n);
    Parts(c, run[n]);
    var s := run[n];
    if s.mgr.Search? { SearchFinds(c, s); }
    forall i: nat | i < |s.dels| ensures DelSafe(s, s.dels[i]) {
      DelIsSafe(c, s, i);
    }
  }

  lemma Parts(c: Config, s: State)
    requires Inv(c, s)
    ensures OrderInv(c, s) && TableInv(c, s) && Conserved(c, s) && BagsInv(s) && PhaseInv(c, s)
    ensures DelWakeInv(s) && MgrWakeInv(s) && CookUnits(s) && DelUnits(s) && SharedUnits(s) && UnitsOK(s)
    ensures s.ogc <= |s.table| && JoinInv(s) && Shape(c, s)
  {
    hide Shape, LockInv, CountInv, JoinInv;
    assert LockInv(s) by { hide OrderInv, WakeInv; }
    UnitParts(s);
  }

  lemma UnitParts(s: State)
    requires LockInv(s)
    ensures CookUnits(s) && DelUnits(s) && SharedUnits(s)
  {
  }

  lemma DelIsSafe(c: Config, s: State, i: nat)
    requires OrderInv(c, s) && BagsInv(s) && DelWakeInv(s) && s.ogc <= |s.table| && i < |s.dels|
    ensures DelSafe(s, s.dels[i])
  {
    assert BagOK(s.dels[i]) && DelFlow(s.deliv, s.noMore, s.dels[i].pc);
    hide OrderInv, BagsInv, DelWakeInv, FindOrder;
    if s.dels[i].pc.Lookup? { var k := LookupFinds(c, s, i); }
  }

  // arr is empty wherever the loop starts again and holds one order while it is on its way.
  predicate DelSafe(s: State, d: Deliverer)
    requires s.ogc <= |s.table|
  {
    && |d.bag| <= 1
    && (d.pc == DLock || d.pc.Lookup? ==> d.bag == [])
    && (d.pc == IfCounter || d.pc == Deliver ==> |d.bag| == 1)
    && (d.pc == Take ==> s.deliv != [])
    && (d.pc.Lookup? ==> Found(s, d.pc).Some?)
  }

  // In no state of any run is a mutex or semaphore overdrawn, and what is taken of each
  // is what its holders hold.
  lemma NeverOverdrawn(c: Config, run: seq<State>, ls: seq<Label>, n: nat)
    requires IsRun(c, run, ls) && n <= |ls|
    ensures UnitsOK(run[n]) && CookUnits(run[n]) && DelUnits(run[n]) && SharedUnits(run[n])
    ensures var l := run[n].locks;
      && l.full <= 1 && l.status <= 1 && l.consume <= 1 && l.delivery <= 1
      && l.shovel <= 3 && l.oven <= 6 && l.entrance <= 1 && l.exit <= 1
      && l.queue <= 1 && l.delQueue <= 1 && l.tally <= 1 && l.moto <= |c.tids|
  {
    RunSafe(c, run, ls, n);
    hide IsRun, Count;
    assert LockInv(run[n]) && UnitsOK(run[n]) && Shape(c, run[n]);
    hide Inv;
  }

  // Some waits never have to wait, and the oven is used by one cook at a time.
  lemma NeverBlocks(c: Config, run: seq<State>, ls: seq<Label>, n: nat)
    requires IsRun(c, run, ls) && n <= |ls|
    ensures var s := run[n];
      && ((exists i: nat :: i < |s.cooks| && s.cooks[i].OvenWait?) ==> s.locks.oven > 0)
      && ((exists i: nat :: i < |s.dels| && s.dels[i].pc == MotoWait) ==> s.locks.moto > 0)
      && (s.mgr == QueueWait ==> s.locks.queue > 0)
      && (s.mgr.CounterWait? ==> s.locks.cookCounter > 0)
      && (s.mgr == Head ==> s.locks.cookCounter == s.ogc - s.counter)
      && (forall i: nat, j: nat :: i < j < |s.cooks| && s.cooks[i].InOven? ==> !s.cooks[j].InOven?)
  {
    hide Next, Init, Inv, TableInv, OrderInv, BagsInv, PhaseInv, DelWakeInv, MgrWakeInv, SharedUnits, UnitsOK;
    RunSafe(c, run, ls, n);
    var s := run[n];
    Parts(c, s);
    CountLess(CookOven, CookShovel, s.cooks);
    forall i: nat | i < |s.dels| && s.dels[i].pc == MotoWait ensures s.locks.moto > 0 {
      CountBounds(DelMoto, s.dels);
      assert !DelMoto(s.dels[i]);
    }
    UnitsAre(s);
    forall i: nat, j: nat | i < j < |s.cooks| && s.cooks[i].InOven? ensures !s.cooks[j].InOven? {
      if s.cooks[j].InOven? { CountTwo(CookEntrance, s.cooks, i, j); }
    }
    QueueUnits(c, s);
  }

  lemma UnitsAre(s: State)
    requires UnitsOK(s)
    ensures s.locks.entrance >= 0 && s.locks.shovel >= 0
  {
  }

  lemma QueueUnits(c: Config, s: State)
    requires SharedUnits(s) && TableInv(c, s) && PhaseInv(c, s)
    ensures s.mgr == QueueWait ==> s.locks.queue > 0
    ensures s.mgr.CounterWait? ==> s.locks.cookCounter > 0
    ensures s.mgr == Head ==> s.locks.cookCounter == s.ogc - s.counter
  {
    hide Count;
  }
}
