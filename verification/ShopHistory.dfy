// In which order orders go through the two queues, and whose deliveries each p_count counts.
module ShopHistory {
  import opened Counting
  import opened Shop
  import opened ShopLocks
  import opened ShopOrders
  import opened ShopSteps
  import opened ShopCounts
  import opened ShopWake
  import opened ShopRuns
  import opened ShopStuck
  import Q = Queues

  // ---------------------------------------------------------------- the two queues

  // The order in the manager's hands.
  function InHand(pc: MgrPc): seq<int> {
    if MgrHolding(pc) then [pc.id] else []
  }

  predicate QueuesInv(s: State) {
    && s.log.cooked == s.log.fetched + s.ready
    && s.log.fetched == s.log.forwarded + InHand(s.mgr)
    && s.log.forwarded == s.log.taken + s.deliv
  }

  // What a step does to the ready queue is what queue.h does.
  lemma ReadyCalls(c: Config, s: State, l: Label, s': State)
    requires Next(c, s, l, s')
    ensures
      if l.Cook? && s.cooks[l.i].EnqueueReady? then
        var id := s.table[s.cooks[l.i].cur].id;
        s'.ready == Q.Left(s.ready, Q.Put(id)) && s'.log.cooked == s.log.cooked + [id]
          && s'.log.fetched == s.log.fetched
      else if l == Mgr && s.mgr == Dequeue then
        s'.mgr.CounterWait? && Q.Answer(s.ready, Q.Get) == [Q.Some(s'.mgr.id)]
          && s'.ready == Q.Left(s.ready, Q.Get) && s'.log.cooked == s.log.cooked
          && s'.log.fetched == s.log.fetched + [s'.mgr.id]
      else s'.ready == s.ready && s'.log.cooked == s.log.cooked && s'.log.fetched == s.log.fetched
  {
    hide CookLocks, CookTable, CookNext, MgrLocks, WakeAll, FindOrder, DelLocks, DelNext, DelBag, Found, FindTid,
      GoodConfig;
  }

  // And so for the delivery queue.
  lemma DeliveryCalls(c: Config, s: State, l: Label, s': State)
    requires Next(c, s, l, s')
    ensures
      if l == Mgr && s.mgr.Enqueue? then
        s'.deliv == Q.Left(s.deliv, Q.Put(s.mgr.id)) && s'.log.forwarded == s.log.forwarded + [s.mgr.id]
          && s'.log.taken == s.log.taken
      else if l.Del? && s.dels[l.i].pc == Take then
        s'.dels[l.i].pc.TakePost? && Q.Answer(s.deliv, Q.Get) == [Q.Some(s'.dels[l.i].pc.id)]
          && s'.deliv == Q.Left(s.deliv, Q.Get) && s'.log.forwarded == s.log.forwarded
          && s'.log.taken == s.log.taken + [s'.dels[l.i].pc.id]
      else s'.deliv == s.deliv && s'.log.forwarded == s.log.forwarded && s'.log.taken == s.log.taken
  {
    hide CookLocks, CookTable, CookNext, MgrLocks, WakeAll, FindOrder, DelLocks, DelBag, Found, FindTid, GoodConfig;
  }

  // The manager forwards the order it has taken, and none other, before it takes the next.
  lemma HandMgr(c: Config, s: State)
    requires MgrCan(c, s) && (s.mgr.Search? ==> FindOrder(s.table, s.ogc, s.mgr.id, None).Some?)
    ensures var q := MgrNext(c, s);
      if s.mgr == Dequeue then InHand(s.mgr) == [] && q.CounterWait? && InHand(q) == [q.id]
      else if s.mgr.Enqueue? then InHand(s.mgr) == [s.mgr.id] && InHand(q) == []
      else InHand(q) == InHand(s.mgr)
  {
    hide FindOrder;
  }

  lemma HandOther(c: Config, s: State, l: Label, s': State)
    requires Next(c, s, l, s') && l != Mgr
    ensures s'.mgr == s.mgr || (s.mgr == MgrAsleep && s'.mgr == MgrRelock)
  {
    hide CookLocks, CookTable, CookNext, CookCan, DelLocks, DelNext, DelBag, DelCan, Found, FindTid, GoodConfig;
  }

  lemma HandStep(c: Config, s: State, l: Label, s': State)
    requires TableInv(c, s) && Conserved(c, s) && Next(c, s, l, s')
    ensures
      if l == Mgr && s.mgr == Dequeue then InHand(s.mgr) == [] && s'.mgr.CounterWait? && InHand(s'.mgr) == [s'.mgr.id]
      else if l == Mgr && s.mgr.Enqueue? then InHand(s.mgr) == [s.mgr.id] && InHand(s'.mgr) == []
      else InHand(s'.mgr) == InHand(s.mgr)
  {
    hide TableInv, Conserved, MgrNext, MgrLocks, WakeAll, FindOrder, CookDo, DelDo, MgrCan;
    if l == Mgr {
      if s.mgr.Search? { SearchFinds(c, s); }
      HandMgr(c, s);
    } else {
      HandOther(c, s, l, s');
    }
  }

  lemma QueuesStep(c: Config, s: State, l: Label, s': State)
    requires TableInv(c, s) && Conserved(c, s) && QueuesInv(s) && Next(c, s, l, s')
    ensures QueuesInv(s')
  {
    ReadyCalls(c, s, l, s');
    DeliveryCalls(c, s, l, s');
    HandStep(c, s, l, s');
    hide Next, InHand, TableInv, Conserved;
    if l == Mgr && s.mgr == Dequeue {
      Q.HeadLeaves(s.log.fetched, s.ready);
    } else if l.Del? && s.dels[l.i].pc == Take {
      Q.HeadLeaves(s.log.taken, s.deliv);
    } else if l == Mgr && s.mgr.Enqueue? {
      Q.Assoc(s.log.taken, s.deliv, [s.mgr.id]);
    } else if l.Cook? {
      Q.Assoc(s.log.fetched, s.ready, s'.ready[|s.ready|..]);
    }
  }

  // ---------------------------------------------------------------- who delivers what

  // What deliverer i has on the way.
  function Carried(d: Deliverer): seq<int> {
    if DelCarries(d.pc) then [d.pc.id] else if DelBagged(d.pc) then d.bag else []
  }

  // Those of the ids that are deliverer i's, in order.
  function By(who: seq<nat>, ids: seq<int>, i: nat): seq<int> {
    if who == [] || ids == [] then []
    else
      By(who[..|who| - 1], ids[..|ids| - 1], i) + if who[|who| - 1] == i then [ids[|ids| - 1]] else []
  }

  lemma ByMore(who: seq<nat>, ids: seq<int>, k: nat, x: int, i: nat)
    requires |who| == |ids|
    ensures By(who + [k], ids + [x], i) == By(who, ids, i) + if k == i then [x] else []
  {
    assert (who + [k])[..|who|] == who && (ids + [x])[..|ids|] == ids;
  }

  predicate OwnHand(s: State, i: nat)
    requires i < |s.dels|
  {
    By(s.log.takers, s.log.taken, i) == By(s.log.carriers, s.delivered, i) + Carried(s.dels[i])
  }

  predicate OwnTally(s: State, i: nat)
    requires i < |s.dels|
  {
    multiset(s.log.tallies)[i] == multiset(s.log.carriers)[i] + One(DelTallied(s.dels[i]))
  }

  predicate HandsInv(s: State) {
    && |s.log.takers| == |s.log.taken| && |s.log.carriers| == |s.delivered|
    && (forall i: nat :: i < |s.dels| ==> OwnHand(s, i) && OwnTally(s, i))
  }

  // A deliverer's step, as far as its orders are concerned.
  lemma HandMoves(s: State, d: Deliverer, e: Deliverer)
    requires d.pc == Take ==> s.deliv != []
    requires d.pc.Lookup? ==> s.ogc <= |s.table|
    requires e.pc == DelNext(s, d) && e.bag == DelBag(s, d) && BagOK(d) && d.pc != DelAsleep
    requires DelBag(s, d) == if d.pc.Lookup? then [d.pc.id] else if d.pc == MotoPost then [] else d.bag
    ensures
      if d.pc == Take then Carried(d) == [] && e.pc.TakePost? && Carried(e) == [e.pc.id]
      else if d.pc == Deliver then d.bag != [] && Carried(d) == [d.bag[0]] && Carried(e) == []
      else Carried(e) == Carried(d)
  {
    hide DelBag;
  }

  lemma TallyMoves(s: State, d: Deliverer, e: Deliverer)
    requires d.pc == Take ==> s.deliv != []
    requires e.pc == DelNext(s, d)
    ensures DelTallied(e) <==> (DelTallied(d) && d.pc != Deliver) || d.pc == Tally
    ensures (DelTallied(d) ==> d.pc != Tally) && (d.pc == Deliver ==> DelTallied(d))
  {
  }

  lemma DelHands(c: Config, s: State, i: nat)
    requires OrderInv(c, s) && Shape(c, s) && DelCan(s, i)
    ensures var s', d := DelDo(c, s, i), s.dels[i];
      && i < |s.dels| == |s'.dels| && s'.dels == s.dels[i := s'.dels[i]]
      && BagOK(d) && d.pc != DelAsleep && (d.pc == Take ==> s.deliv != [])
      && (d.pc.Lookup? ==> s.ogc <= |s.table|)
      && s'.dels[i].pc == DelNext(s, d) && s'.dels[i].bag == DelBag(s, d)
      && DelBag(s, d) == if d.pc.Lookup? then [d.pc.id] else if d.pc == MotoPost then [] else d.bag
  {
    DelBagStep(c, s, i);
    assert BagOK(s.dels[i]);
    hide OrderInv, BagOK, GoodConfig, DelLocks, DelBag, DelNext, FindTid, Found;
  }

  lemma LogMoves(c: Config, s: State, i: nat)
    requires Shape(c, s) && DelCan(s, i)
    ensures var s', d := DelDo(c, s, i), s.dels[i];
      && (d.pc == Take ==> s'.dels[i].pc.TakePost?)
      && s'.log.taken == (if d.pc == Take then s.log.taken + [s'.dels[i].pc.id] else s.log.taken)
      && s'.log.takers == (if d.pc == Take then s.log.takers + [i] else s.log.takers)
      && s'.delivered == (if d.pc == Deliver then s.delivered + [d.bag[0]] else s.delivered)
      && s'.log.carriers == (if d.pc == Deliver then s.log.carriers + [i] else s.log.carriers)
      && s'.log.tallies == (if d.pc == Tally then s.log.tallies + [i] else s.log.tallies)
  {
    hide GoodConfig, DelLocks, DelBag, FindTid, Found;
  }

  lemma HandsDel(c: Config, s: State, i: nat)
    requires OrderInv(c, s) && Shape(c, s) && HandsInv(s) && DelCan(s, i)
    ensures HandsInv(DelDo(c, s, i))
  {
    hide OrderInv, Shape, DelDo, DelCan, Carried, DelTallied, DelBag, DelNext, BagOK, OwnHand, OwnTally, By;
    var s' := DelDo(c, s, i);
    DelHands(c, s, i);
    HandMoves(s, s.dels[i], s'.dels[i]);
    TallyMoves(s, s.dels[i], s'.dels[i]);
    LogMoves(c, s, i);
    forall j: nat | j < |s'.dels| ensures OwnHand(s', j) && OwnTally(s', j) {
      HandDel(s, s', i, j);
      TallyDel(s, s', i, j);
    }
  }

  // What a step of deliverer i means for what deliverer j has taken and delivered.
  lemma HandDel(s: State, s': State, i: nat, j: nat)
    requires i < |s.dels| && j < |s.dels| == |s'.dels| && s'.dels == s.dels[i := s'.dels[i]] && OwnHand(s, j)
    requires |s.log.takers| == |s.log.taken| && |s.log.carriers| == |s.delivered|
    requires var d, e := s.dels[i], s'.dels[i];
      if d.pc == Take then
        Carried(d) == [] && e.pc.TakePost? && Carried(e) == [e.pc.id]
          && s'.log.taken == s.log.taken + [e.pc.id] && s'.log.takers == s.log.takers + [i]
          && s'.delivered == s.delivered && s'.log.carriers == s.log.carriers
      else if d.pc == Deliver then
        d.bag != [] && Carried(d) == [d.bag[0]] && Carried(e) == []
          && s'.log.taken == s.log.taken && s'.log.takers == s.log.takers
          && s'.delivered == s.delivered + [d.bag[0]] && s'.log.carriers == s.log.carriers + [i]
      else
        Carried(e) == Carried(d) && s'.log.taken == s.log.taken && s'.log.takers == s.log.takers
          && s'.delivered == s.delivered && s'.log.carriers == s.log.carriers
    ensures OwnHand(s', j)
  {
    hide By, Carried;
    var d := s.dels[i];
    if d.pc == Take {
      ByMore(s.log.takers, s.log.taken, i, s'.dels[i].pc.id, j);
    } else if d.pc == Deliver {
      ByMore(s.log.carriers, s.delivered, i, d.bag[0], j);
    }
  }

  // And for what is tallied as deliverer j's.
  lemma TallyDel(s: State, s': State, i: nat, j: nat)
    requires i < |s.dels| && j < |s.dels| == |s'.dels| && s'.dels == s.dels[i := s'.dels[i]] && OwnTally(s, j)
    requires var d, e := s.dels[i], s'.dels[i];
      && (DelTallied(e) <==> (DelTallied(d) && d.pc != Deliver) || d.pc == Tally)
      && (DelTallied(d) ==> d.pc != Tally) && (d.pc == Deliver ==> DelTallied(d))
      && s'.log.carriers == (if d.pc == Deliver then s.log.carriers + [i] else s.log.carriers)
      && s'.log.tallies == (if d.pc == Tally then s.log.tallies + [i] else s.log.tallies)
    ensures OwnTally(s', j)
  {
    hide DelTallied;
  }

  lemma AwokenHands()
    ensures forall d: Deliverer {:trigger d.(pc := DelRelock)} :: d.pc == DelAsleep ==>
      Carried(d.(pc := DelRelock)) == Carried(d) && DelTallied(d.(pc := DelRelock)) == DelTallied(d)
  {
  }

  lemma HandsOther(c: Config, s: State, l: Label, s': State)
    requires Next(c, s, l, s') && !l.Del?
    ensures |s'.dels| == |s.dels| && s'.delivered == s.delivered && s'.pCounts == s.pCounts
    ensures s'.log.taken == s.log.taken && s'.log.takers == s.log.takers
    ensures s'.log.carriers == s.log.carriers && s'.log.tallies == s.log.tallies
    ensures forall i: nat :: i < |s.dels| ==>
      Carried(s'.dels[i]) == Carried(s.dels[i]) && DelTallied(s'.dels[i]) == DelTallied(s.dels[i])
  {
    hide GoodConfig, CookLocks, CookTable, CookNext, CookCan, MgrLocks, MgrNext, MgrCan, FindOrder, Carried, DelTallied;
    AwokenHands();
  }

  lemma HandsStep(c: Config, s: State, l: Label, s': State)
    requires OrderInv(c, s) && HandsInv(s) && Next(c, s, l, s')
    ensures HandsInv(s')
  {
    if l.Del? {
      hide OrderInv, HandsInv, DelDo, DelCan;
      HandsDel(c, s, l.i);
    } else {
      HandsOther(c, s, l, s');
      hide OrderInv, Next, By, Carried, DelTallied;
      forall j: nat | j < |s'.dels| ensures OwnHand(s', j) && OwnTally(s', j) {
        assert OwnHand(s, j) && OwnTally(s, j);
      }
    }
  }

  // ---------------------------------------------------------------- whose p_count

  // Deliverer j's entry is the one its thread id stands for.
  predicate FirstOf(tids: seq<nat>, j: nat)
    requires j < |tids|
  {
    forall i :: 0 <= i < j ==> tids[i] != tids[j]
  }

  // How many of these are by one of the first m deliverers with this thread id.
  function Credit(tids: seq<nat>, who: multiset<nat>, tid: nat, m: nat): nat
    requires m <= |tids|
  {
    if m == 0 then 0 else Credit(tids, who, tid, m - 1) + if tids[m - 1] == tid then who[m - 1] else 0
  }

  lemma {:induction false} CreditMore(tids: seq<nat>, who: multiset<nat>, i: nat, tid: nat, m: nat)
    requires m <= |tids| && i < |tids|
    ensures Credit(tids, who + multiset{i}, tid, m) == Credit(tids, who, tid, m) + One(i < m && tids[i] == tid)
  {
    if m == 0 {
    } else {
      CreditMore(tids, who, i, tid, m - 1);
    }
  }

  lemma {:induction false} NoCredit(tids: seq<nat>, tid: nat, m: nat)
    requires m <= |tids|
    ensures Credit(tids, multiset{}, tid, m) == 0
  {
    if m == 0 {
    } else {
      NoCredit(tids, tid, m - 1);
    }
  }

  // With distinct thread ids it is the deliverer's own number.
  lemma {:induction false} OwnCredit(tids: seq<nat>, who: multiset<nat>, j: nat, m: nat)
    requires j < |tids| && m <= |tids| && forall i, k :: 0 <= i < k < |tids| ==> tids[i] != tids[k]
    ensures Credit(tids, who, tids[j], m) == if j < m then who[j] else 0
  {
    if m == 0 {
    } else {
      OwnCredit(tids, who, j, m - 1);
    }
  }

  // Only a multiset of deliverers that are there counts.
  lemma {:induction false} SameCredit(tids: seq<nat>, a: multiset<nat>, b: multiset<nat>, tid: nat, m: nat)
    requires m <= |tids| && forall i: nat :: i < m ==> a[i] == b[i]
    ensures Credit(tids, a, tid, m) == Credit(tids, b, tid, m)
  {
    if m == 0 {
    } else {
      SameCredit(tids, a, b, tid, m - 1);
    }
  }

  // What deliverer j's entry must hold after these.
  function Expected(tids: seq<nat>, who: seq<nat>, j: nat): nat
    requires j < |tids|
  {
    if FirstOf(tids, j) then Credit(tids, multiset(who), tids[j], |tids|) else 0
  }

  predicate CreditInv(c: Config, s: State) {
    && |s.pCounts| == |c.tids|
    && (forall j: nat :: j < |c.tids| ==> s.pCounts[j] == Expected(c.tids, s.log.tallies, j))
  }

  lemma PcountMoves(c: Config, s: State, i: nat)
    requires Shape(c, s) && DelCan(s, i)
    ensures var s' := DelDo(c, s, i);
      if s.dels[i].pc == Tally then
        exists m: nat :: m < |c.tids| && c.tids[m] == c.tids[i] && FirstOf(c.tids, m)
          && s'.pCounts == s.pCounts[m := s.pCounts[m] + 1]
      else s'.pCounts == s.pCounts
  {
    var mine := FindTid(c.tids, |c.tids|, c.tids[i]);
    assert mine.Some? && FirstOf(c.tids, mine.value);
    hide GoodConfig, DelLocks, DelBag, DelNext, FindTid, Found;
  }

  lemma CreditDel(c: Config, s: State, i: nat)
    requires Shape(c, s) && CreditInv(c, s) && DelCan(s, i)
    ensures CreditInv(c, DelDo(c, s, i))
  {
    var s' := DelDo(c, s, i);
    PcountMoves(c, s, i);
    LogMoves(c, s, i);
    hide Shape, DelDo, DelCan, Credit;
    if s.dels[i].pc == Tally {
      var m: nat :| m < |c.tids| && c.tids[m] == c.tids[i] && FirstOf(c.tids, m)
        && s'.pCounts == s.pCounts[m := s.pCounts[m] + 1];
      forall j: nat | j < |c.tids| ensures s'.pCounts[j] == Expected(c.tids, s'.log.tallies, j) {
        assert multiset(s'.log.tallies) == multiset(s.log.tallies) + multiset{i};
        CreditMore(c.tids, multiset(s.log.tallies), i, c.tids[j], |c.tids|);
      }
    }
  }

  lemma CreditStep(c: Config, s: State, l: Label, s': State)
    requires CreditInv(c, s) && Next(c, s, l, s')
    ensures CreditInv(c, s')
  {
    if l.Del? {
      hide CreditInv, DelDo, DelCan;
      CreditDel(c, s, l.i);
    } else {
      HandsOther(c, s, l, s');
      hide Next, Expected;
    }
  }

  // ---------------------------------------------------------------- runs

  predicate HistoryInv(c: Config, s: State) {
    QueuesInv(s) && HandsInv(s) && CreditInv(c, s)
  }

  lemma HistoryInit(c: Config, s: State)
    requires Init(c, s)
    ensures HistoryInv(c, s)
  {
    forall j: nat | j < |c.tids| ensures Expected(c.tids, [], j) == 0 {
      NoCredit(c.tids, c.tids[j], |c.tids|);
      assert multiset(s.log.tallies) == multiset{};
    }
  }

  lemma {:induction false} HistoryThroughout(c: Config, run: seq<State>, ls: seq<Label>, n: nat)
    requires IsRun(c, run, ls) && n <= |ls|
    ensures HistoryInv(c, run[n])
  {
    hide Init, Next, Inv, QueuesInv, HandsInv, CreditInv, OrderInv, TableInv, Conserved;
    if n == 0 {
      HistoryInit(c, run[0]);
    } else {
      HistoryThroughout(c, run, ls, n - 1);
      RunSafe(c, run, ls, n - 1);
      assert Next(c, run[n - 1], ls[n - 1], run[n - 1 + 1]);
      Parts(c, run[n - 1]);
      QueuesStep(c, run[n - 1], ls[n - 1], run[n]);
      HandsStep(c, run[n - 1], ls[n - 1], run[n]);
      CreditStep(c, run[n - 1], ls[n - 1], run[n]);
    }
  }

  // In every state of every run, orders have left each queue in the order they entered
  // it: the deliverers have taken the orders in the order the cooks finished them, and
  // what they have not taken is in the delivery queue, in the manager's hands and in the
  // ready queue, in that order.
  lemma FirstCookedFirstTaken(c: Config, run: seq<State>, ls: seq<Label>, n: nat)
    requires IsRun(c, run, ls) && n <= |ls|
    ensures var s := run[n];
      && s.log.cooked == s.log.fetched + s.ready
      && s.log.forwarded == s.log.taken + s.deliv
      && s.log.cooked == s.log.taken + s.deliv + InHand(s.mgr) + s.ready
  {
    HistoryThroughout(c, run, ls, n);
    hide IsRun, HandsInv, CreditInv, InHand;
  }

  // Each deliverer delivers the orders it has taken, in that order, and has at most one
  // on the way.
  lemma OwnOrders(c: Config, run: seq<State>, ls: seq<Label>, n: nat, i: nat)
    requires IsRun(c, run, ls) && n <= |ls| && i < |run[n].dels|
    ensures var s := run[n];
      && |s.log.takers| == |s.log.taken| && |s.log.carriers| == |s.delivered|
      && By(s.log.takers, s.log.taken, i) == By(s.log.carriers, s.delivered, i) + Carried(s.dels[i])
      && |Carried(s.dels[i])| <= 1
  {
    HistoryThroughout(c, run, ls, n);
    RunSafe(c, run, ls, n);
    Parts(c, run[n]);
    assert BagOK(run[n].dels[i]) && OwnHand(run[n], i);
    hide IsRun, Inv, QueuesInv, CreditInv, By;
  }

  // In every state of every run each p_count is the number of passages through lines
  // 687-692 by the deliverers whose thread id leads to this entry.
  lemma CreditedToOwn(c: Config, run: seq<State>, ls: seq<Label>, n: nat, j: nat)
    requires IsRun(c, run, ls) && n <= |ls| && j < |c.tids|
    ensures |run[n].pCounts| == |c.tids|
    ensures run[n].pCounts[j] == Expected(c.tids, run[n].log.tallies, j)
    ensures (forall i, k :: 0 <= i < k < |c.tids| ==> c.tids[i] != c.tids[k]) ==>
      run[n].pCounts[j] == multiset(run[n].log.tallies)[j]
  {
    HistoryThroughout(c, run, ls, n);
    if forall i, k :: 0 <= i < k < |c.tids| ==> c.tids[i] != c.tids[k] {
      OwnCredit(c.tids, multiset(run[n].log.tallies), j, |c.tids|);
    }
    hide IsRun, QueuesInv, HandsInv, Credit;
  }

  // ---------------------------------------------------------------- the message is honest

  // "ALL ORDERS SERVED" is sent only when every order received has been delivered exactly
  // once. The p_counts then add up to the number of orders, and each is the number of
  // deliveries made by the deliverers whose thread id leads to it: with distinct ids,
  // its deliverer's own.
  lemma ServedIsHonest(c: Config, run: seq<State>, ls: seq<Label>, n: nat)
    requires IsRun(c, run, ls) && n <= |ls| && (run[n].main == SendServed || run[n].main == Served)
    ensures var s := run[n];
      && multiset(s.delivered) == multiset(c.orders) && Sum(s.pCounts) == |c.orders|
      && (forall k: nat :: k < |c.orders| ==> multiset(s.delivered)[c.orders[k]] == 1)
      && |s.log.carriers| == |s.delivered| && |s.pCounts| == |c.tids|
      && (forall j: nat :: j < |c.tids| ==> s.pCounts[j] == Expected(c.tids, s.log.carriers, j))
      && ((forall i, k :: 0 <= i < k < |c.tids| ==> c.tids[i] != c.tids[k]) ==>
            forall j: nat :: j < |c.tids| ==> s.pCounts[j] == multiset(s.log.carriers)[j])
  {
    hide Next, Init, Inv, QueuesInv, HandsInv, CreditInv, Sum, Expected, TableInv, OrderInv, Conserved;
    var s := run[n];
    ServedAll(c, run, ls, n);
    HistoryThroughout(c, run, ls, n);
    RunSafe(c, run, ls, n);
    Parts(c, s);
    OverTheDoor(c, s);
    forall j: nat | j < |c.tids| ensures s.pCounts[j] == Expected(c.tids, s.log.carriers, j) {
      CreditedToOwn(c, run, ls, n, j);
      SameExpected(c, s, j);
    }
    forall j: nat | j < |c.tids| && forall i, k :: 0 <= i < k < |c.tids| ==> c.tids[i] != c.tids[k]
      ensures s.pCounts[j] == multiset(s.log.carriers)[j]
    {
      CreditedToOwn(c, run, ls, n, j);
    }
  }

  // Nobody is on the way: tallied and delivered is the same.
  lemma OverTheDoor(c: Config, s: State)
    requires JoinInv(s) && Shape(c, s) && HandsInv(s) && (s.main == SendServed || s.main == Served)
    ensures |s.log.carriers| == |s.delivered|
    ensures forall i: nat :: i < |c.tids| ==> multiset(s.log.tallies)[i] == multiset(s.log.carriers)[i]
  {
    forall i: nat | i < |c.tids| ensures multiset(s.log.tallies)[i] == multiset(s.log.carriers)[i] {
      assert s.dels[i].pc == DelReturned && OwnTally(s, i);
    }
  }

  lemma SameExpected(c: Config, s: State, j: nat)
    requires j < |c.tids|
    requires forall i: nat :: i < |c.tids| ==> multiset(s.log.tallies)[i] == multiset(s.log.carriers)[i]
    ensures Expected(c.tids, s.log.tallies, j) == Expected(c.tids, s.log.carriers, j)
  {
    SameCredit(c.tids, multiset(s.log.tallies), multiset(s.log.carriers), c.tids[j], |c.tids|);
  }
}
