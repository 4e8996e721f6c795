// The shop finishes its work: apart from polling and spurious wake-ups every step uses up
// a measure, whatever the interleaving.
module ShopTermination {
  import opened Counting
  import opened Shop
  import opened ShopLocks
  import opened ShopOrders
  import opened ShopSteps
  import opened ShopCounts
  import opened ShopWake
  import opened ShopRuns
  import opened ShopStuck

  // What an order still costs when it is in a queue or not yet claimed.
  const DELIV: nat := 18

  function Wakes(c: Config): nat {
    7 * |c.tids|
  }

  function ReadyCost(c: Config): nat {
    34 + Wakes(c)
  }

  function ClaimCost(c: Config): nat {
    68 + Wakes(c)
  }

  function MgrRank(c: Config, pc: MgrPc): nat {
    match pc
    case MgrReturned => 0
    case MgrAsleep => 0
    case ConsumeWait => 1
    case Dequeue => 1
    case QueueWait => 2
    case SetNoMore => 2
    case TestReady => 3
    case BroadcastNew => 3
    case MgrRelock => 4
    case ConsumeLock => 4
    case Head => 5
    case InitCounter => 6
    case ConsumeUnlock => 6
    case SetGlobal => 7
    case DeliveryUnlock => 7
    case Read => 8
    case WriteOrder => 7
    case Publish => 9
    case BroadcastDeliver => 8 + Wakes(c)
    case DelQueuePost => 9 + Wakes(c)
    case CountUp => 10 + Wakes(c)
    case Enqueue(_) => 11 + DELIV + Wakes(c)
    case DelQueueWait(_) => 12 + DELIV + Wakes(c)
    case DeliveryLock(_) => 13 + DELIV + Wakes(c)
    case Search(_) => 14 + DELIV + Wakes(c)
    case QueuePost(_) => 15 + DELIV + Wakes(c)
    case CounterWait(_) => 16 + DELIV + Wakes(c)
  }

  function DelRank(pc: DelPc): nat {
    match pc
    case DelAsleep => 0
    case DelReturned => 0
    case DeliverWait => 1
    case ExitUnlock => 1
    case IfMore => 2
    case Take => 2
    case TakeWait => 3
    case IfQueue => 4
    case TestMore => 5
    case TestQueue => 6
    case DelRelock => 7
    case DLock => 7
    case MotoPost => 8
    case Deliver => 9
    case TallyPost => 10
    case Tally => 11
    case TallyWait => 12
    case MotoWait => 13
    case IfCounter => 14
    case StatusUnlock => 15
    case Lookup(_) => 16
    case StatusLock(_) => 17
    case DUnlock(_) => 18
    case TakePost(_) => 19
  }

  // Polling costs nothing while there is nothing to claim: avail says that there is.
  function PollRank(pc: CookPc, avail: bool, noMore: bool): nat {
    if noMore then (match pc case SpinNext => 6 case BodyNext => 7 case _ => 5)
    else if avail then (match pc case SpinNext => 5 case SpinMore => 7 case _ => 6)
    else 7
  }

  function CookRank(c: Config, pc: CookPc, avail: bool, noMore: bool): nat {
    match pc
    case CookReturned => 0
    case ReturnUnlock => 1
    case ContinueUnlock => 2
    case TakeNext => 3
    case IfNext => 4
    case SpinNext => PollRank(pc, avail, noMore)
    case SpinMore => PollRank(pc, avail, noMore)
    case BodyNext => PollRank(pc, avail, noMore)
    case BodyMore => PollRank(pc, avail, noMore)
    case FullLock => 8
    case Outer => if noMore then 1 else 9
    case CookMessage => 10
    case ReadyUnlock => 11
    case SignalConsume => 16
    case EnqueueReady(_) => 17 + ReadyCost(c)
    case ReadyLock(_) => 18 + ReadyCost(c)
    case CookedUnlock(_) => 19 + ReadyCost(c)
    case SetCooked(_) => 20 + ReadyCost(c)
    case CookedLock(_) => 21 + ReadyCost(c)
    case ExitPost(_) => 22 + ReadyCost(c)
    case ExitWait(_) => 23 + ReadyCost(c)
    case ShovelPost(_) => 24 + ReadyCost(c)
    case OvenPost(_) => 25 + ReadyCost(c)
    case EntrancePost(_) => 26 + ReadyCost(c)
    case InOven(_) => 27 + ReadyCost(c)
    case CookingUnlock(_) => 28 + ReadyCost(c)
    case SetCooking(_) => 29 + ReadyCost(c)
    case CookingLock(_) => 30 + ReadyCost(c)
    case EntranceWait(_) => 31 + ReadyCost(c)
    case OvenWait(_) => 32 + ReadyCost(c)
    case ShovelWait(_) => 33 + ReadyCost(c)
    case FullUnlock(_) => 34 + ReadyCost(c)
  }

  function MainRank(c: Config, pc: MainPc): nat {
    match pc
    case JoinManager => c.cooks + |c.tids| + 5
    case JoinCook(i) => (if i <= c.cooks then c.cooks - i else 0) + |c.tids| + 4
    case JoinDeliverer(i) => (if i <= |c.tids| then |c.tids| - i else 0) + 2
    case SendServed => 1
    case Served => 0
  }

  function CookSum(c: Config, cooks: seq<CookPc>, avail: bool, noMore: bool): nat {
    if cooks == [] then 0 else CookRank(c, cooks[0], avail, noMore) + CookSum(c, cooks[1..], avail, noMore)
  }

  function DelSum(dels: seq<Deliverer>): nat {
    if dels == [] then 0 else DelRank(dels[0].pc) + DelSum(dels[1..])
  }

  function Avail(s: State): bool {
    s.next < s.ogc
  }

  // k orders at w each; negative where k is, which it never is.
  function At(k: int, w: nat): int {
    k * w
  }

  lemma AtLess(k: int, w: nat)
    ensures At(k - 1, w) == At(k, w) - w
  {
    assert (k - 1) * w == k * w - w;
  }

  // What is left to do.
  function Work(c: Config, s: State): int {
    3 * (|c.orders| - |s.table|) + At(|c.orders| - s.next, ClaimCost(c)) + At(|s.ready|, ReadyCost(c))
    + DELIV * |s.deliv| + CookSum(c, s.cooks, Avail(s), s.noMore) + DelSum(s.dels)
    + MgrRank(c, s.mgr) + MainRank(c, s.main)
  }

  // A cook about to claim has seen that it can, or that the shop is closing.
  predicate ClaimOK(s: State, pc: CookPc) {
    (pc.IfNext? ==> s.next < s.ogc || s.noMore) && (pc.ContinueUnlock? ==> s.noMore)
  }

  predicate ClaimInv(s: State) {
    forall i: nat :: i < |s.cooks| ==> ClaimOK(s, s.cooks[i])
  }

  // ---------------------------------------------------------------- sums

  lemma {:induction false} CookSumUpdate(c: Config, cooks: seq<CookPc>, i: nat, q: CookPc, avail: bool, noMore: bool)
    requires i < |cooks|
    ensures CookSum(c, cooks[i := q], avail, noMore)
      == CookSum(c, cooks, avail, noMore) - CookRank(c, cooks[i], avail, noMore) + CookRank(c, q, avail, noMore)
  {
    hide CookRank;
    if i == 0 {
      assert cooks[0 := q][1..] == cooks[1..];
    } else {
      CookSumUpdate(c, cooks[1..], i - 1, q, avail, noMore);
      assert cooks[i := q][1..] == cooks[1..][i - 1 := q];
    }
  }

  lemma {:induction false} CookSumLess(c: Config, cooks: seq<CookPc>, a: bool, m: bool, a': bool, m': bool)
    requires forall i: nat :: i < |cooks| ==> CookRank(c, cooks[i], a', m') <= CookRank(c, cooks[i], a, m)
    ensures CookSum(c, cooks, a', m') <= CookSum(c, cooks, a, m)
  {
    hide CookRank;
    if cooks == [] {
    } else {
      assert CookRank(c, cooks[0], a', m') <= CookRank(c, cooks[0], a, m);
      forall i: nat | i < |cooks[1..]| ensures CookRank(c, cooks[1..][i], a', m') <= CookRank(c, cooks[1..][i], a, m) {
        assert cooks[1..][i] == cooks[i + 1];
      }
      CookSumLess(c, cooks[1..], a, m, a', m');
    }
  }

  lemma {:induction false} DelSumUpdate(dels: seq<Deliverer>, i: nat, e: Deliverer)
    requires i < |dels|
    ensures DelSum(dels[i := e]) == DelSum(dels) - DelRank(dels[i].pc) + DelRank(e.pc)
  {
    hide DelRank;
    if i == 0 {
      assert dels[0 := e][1..] == dels[1..];
    } else {
      DelSumUpdate(dels[1..], i - 1, e);
      assert dels[i := e][1..] == dels[1..][i - 1 := e];
    }
  }

  lemma {:induction false} DelSumWake(dels: seq<Deliverer>)
    ensures DelSum(WakeAll(dels)) <= DelSum(dels) + 7 * |dels|
  {
    if dels == [] {
    } else {
      DelSumWake(dels[1..]);
    }
  }

  // ---------------------------------------------------------------- cooks

  lemma ClaimCook(s: State, i: nat)
    requires LockInv(s) && UnitsOK(s) && ClaimInv(s) && CookCan(s, i)
    ensures ClaimInv(CookDo(s, i))
  {
    var s', pc := CookDo(s, i), s.cooks[i];
    assert ClaimOK(s, pc);
    assert ClaimOK(s, CookNext(s, pc));
    assert CookNext(s, pc).FullUnlock? || pc != TakeNext;
    forall j: nat | j < |s'.cooks| ensures ClaimOK(s', s'.cooks[j]) {
      assert ClaimOK(s, s.cooks[j]);
      if j != i && pc == TakeNext { OneClaims(s, i, j); }
      hide LockInv, UnitsOK, CookNext, CookLocks, CookTable;
    }
  }

  // The rank of the cook, with what it puts into the ready queue and takes from the orders.
  predicate RankDrops(c: Config, s: State, pc: CookPc) {
    var before, after := CookRank(c, pc, Avail(s), s.noMore), CookRank(c, CookNext(s, pc), Avail(s), s.noMore);
    after + (if pc.EnqueueReady? then ReadyCost(c) else 0) + 4 * One(pc == SignalConsume) + One(!Polling(s, pc))
      <= before + (if pc == TakeNext then ClaimCost(c) else 0)
  }

  lemma EarlyRankDrops(c: Config, s: State, pc: CookPc)
    requires ClaimOK(s, pc) && pc != CookReturned && !CookHolds(pc)
    ensures RankDrops(c, s, pc)
  {
  }

  lemma LateRankDrops(c: Config, s: State, pc: CookPc)
    requires CookHolds(pc)
    ensures RankDrops(c, s, pc)
  {
  }

  // Claiming an order may leave none, but nobody is polling then.
  lemma ClaimKeepsRanks(c: Config, s: State, i: nat, q: CookPc, avail: bool)
    requires LockInv(s) && UnitsOK(s) && i < |s.cooks| && s.cooks[i] == TakeNext && q.FullUnlock?
    ensures CookSum(c, s.cooks[i := q], avail, s.noMore) <= CookSum(c, s.cooks[i := q], Avail(s), s.noMore)
  {
    var after := s.cooks[i := q];
    forall j: nat | j < |after|
      ensures CookRank(c, after[j], avail, s.noMore) <= CookRank(c, after[j], Avail(s), s.noMore)
    {
      if j != i { OneClaims(s, i, j); }
    }
    CookSumLess(c, after, Avail(s), s.noMore, avail, s.noMore);
  }

  // The parts of the measure after the step.
  lemma CookItems(c: Config, s: State, i: nat)
    requires CookCan(s, i)
    ensures var s', pc := CookDo(s, i), s.cooks[i];
      && At(|c.orders| - s'.next, ClaimCost(c))
           == At(|c.orders| - s.next, ClaimCost(c)) - (if pc == TakeNext then ClaimCost(c) else 0)
      && At(|s'.ready|, ReadyCost(c)) == At(|s.ready|, ReadyCost(c)) + (if pc.EnqueueReady? then ReadyCost(c) else 0)
      && MgrRank(c, s'.mgr) <= MgrRank(c, s.mgr) + 4 * One(pc == SignalConsume)
  {
    CookEffect(s, i);
    hide CookDo, CookNext, At, ClaimCost, ReadyCost;
    AtLess(|c.orders| - s.next, ClaimCost(c));
    AtLess(|s.ready| + 1, ReadyCost(c));
  }

  lemma CookRanks(c: Config, s: State, i: nat)
    requires LockInv(s) && UnitsOK(s) && CookCan(s, i)
    ensures var s', pc := CookDo(s, i), s.cooks[i];
      CookSum(c, s'.cooks, Avail(s'), s'.noMore) <= CookSum(c, s.cooks, Avail(s), s.noMore)
        - CookRank(c, pc, Avail(s), s.noMore) + CookRank(c, CookNext(s, pc), Avail(s), s.noMore)
  {
    CookEffect(s, i);
    var s' := CookDo(s, i);
    var pc, q := s.cooks[i], CookNext(s, s.cooks[i]);
    hide CookDo, LockInv, UnitsOK, CookRank, CookSum;
    CookSumUpdate(c, s.cooks, i, q, Avail(s), s.noMore);
    if pc == TakeNext { ClaimKeepsRanks(c, s, i, q, Avail(s')); }
    hide CookNext, CookCan;
  }

  lemma CookLoses(c: Config, s: State, i: nat)
    requires ClaimInv(s) && CookCan(s, i)
    ensures RankDrops(c, s, s.cooks[i])
  {
    var pc := s.cooks[i];
    assert ClaimOK(s, pc) && pc != CookReturned;
    hide CookRank, CookNext, ClaimInv, ClaimOK, Polling, ReadyCost, ClaimCost, Avail, CookHolds, RankDrops;
    if CookHolds(pc) { LateRankDrops(c, s, pc); } else { EarlyRankDrops(c, s, pc); }
  }

  lemma CookUses(c: Config, s: State, i: nat)
    requires LockInv(s) && UnitsOK(s) && ClaimInv(s) && CookCan(s, i)
    ensures Work(c, CookDo(s, i)) + One(!Polling(s, s.cooks[i])) <= Work(c, s)
  {
    hide CookDo, CookNext, LockInv, UnitsOK, ClaimInv, CookRank, CookSum, DelSum, MgrRank, MainRank, At, ClaimCost,
      ReadyCost, Polling, Avail;
    CookEffect(s, i);
    CookItems(c, s, i);
    CookRanks(c, s, i);
    CookLoses(c, s, i);
  }

  // ---------------------------------------------------------------- deliverers

  lemma DelRankDrops(s: State, d: Deliverer)
    requires DelFlow(s.deliv, s.noMore, d.pc) && d.pc != DelReturned && d.pc != DelAsleep
    ensures d.pc != Take ==> DelRank(DelNext(s, d)) + 1 <= DelRank(d.pc)
    ensures d.pc == Take ==> DelRank(DelNext(s, d)) + 1 <= DelRank(d.pc) + DELIV
  {
  }

  lemma DelLoses(c: Config, s: State, i: nat)
    requires DelWakeInv(s) && Shape(c, s) && DelCan(s, i)
    ensures DelSum(DelDo(c, s, i).dels) + 1 <= DelSum(s.dels) + (if s.dels[i].pc == Take then DELIV else 0)
  {
    DelEffect(c, s, i);
    var s', d := DelDo(c, s, i), s.dels[i];
    assert DelFlow(s.deliv, s.noMore, d.pc) && d.pc != DelReturned && d.pc != DelAsleep;
    assert d.pc == Take ==> s.deliv != [];
    hide DelDo, DelRank, DelSum, DelFlow, DelWakeInv, DelCan, Shape;
    DelRankDrops(s, d);
    DelSumUpdate(s.dels, i, s'.dels[i]);
    hide DelNext;
  }

  lemma DelUses(c: Config, s: State, i: nat)
    requires DelWakeInv(s) && Shape(c, s) && DelCan(s, i)
    ensures Work(c, DelDo(c, s, i)) + 1 <= Work(c, s)
  {
    hide DelDo, DelNext, DelWakeInv, DelCan, Shape, At, DelSum, CookSum, MgrRank, MainRank, ReadyCost, ClaimCost;
    DelEffect(c, s, i);
    DelLoses(c, s, i);
  }

  // ---------------------------------------------------------------- manager

  lemma MgrRankDrops(c: Config, s: State)
    requires MgrCan(c, s)
    ensures var q := MgrNext(c, s);
      if s.mgr == Dequeue then MgrRank(c, q) + 1 <= MgrRank(c, s.mgr) + ReadyCost(c)
      else if s.mgr.Enqueue? then MgrRank(c, q) + DELIV + 1 <= MgrRank(c, s.mgr)
      else if s.mgr == WriteOrder then MgrRank(c, q) + 1 <= MgrRank(c, s.mgr) + 3
      else if s.mgr == BroadcastDeliver then MgrRank(c, q) + Wakes(c) + 1 <= MgrRank(c, s.mgr)
      else MgrRank(c, q) + 1 <= MgrRank(c, s.mgr)
  {
    hide FindOrder;
  }

  // More orders, or the end of them, make no poll longer.
  lemma NewsShortensPolls(c: Config, s: State, avail': bool, noMore': bool)
    requires (noMore' == s.noMore && (Avail(s) ==> avail')) || (!s.noMore && !Avail(s))
    requires s.noMore ==> noMore'
    ensures CookSum(c, s.cooks, avail', noMore') <= CookSum(c, s.cooks, Avail(s), s.noMore)
  {
    CookSumLess(c, s.cooks, Avail(s), s.noMore, avail', noMore');
  }

  lemma MgrEffect(c: Config, s: State)
    requires TableInv(c, s) && MgrCan(c, s)
    ensures var s', pc := MgrDo(c, s), s.mgr;
      && |s'.table| == |s.table| + One(pc == WriteOrder) && |s'.ready| == |s.ready| - One(pc == Dequeue)
      && |s'.deliv| == |s.deliv| + One(pc.Enqueue?) && s'.next == s.next && s'.ogc == s.ogc + One(pc == Publish)
      && s'.cooks == s.cooks && s'.main == s.main
      && s'.noMore == (s.noMore || pc == SetNoMore) && s'.mgr == MgrNext(c, s)
      && s'.dels == if pc == BroadcastDeliver then WakeAll(s.dels) else s.dels
  {
    hide MgrNext, MgrLocks, WakeAll;
  }

  lemma MgrPolls(c: Config, s: State)
    requires TableInv(c, s) && CountInv(s) && PhaseInv(c, s) && MgrCan(c, s)
    ensures var s' := MgrDo(c, s);
      CookSum(c, s'.cooks, Avail(s'), s'.noMore) <= CookSum(c, s.cooks, Avail(s), s.noMore)
  {
    var s' := MgrDo(c, s);
    MgrEffect(c, s);
    assert s.mgr == SetNoMore ==> !Avail(s) && !s.noMore;
    hide MgrDo, MgrNext, CookSum, TableInv, CountInv, PhaseInv, MgrCan;
    NewsShortensPolls(c, s, Avail(s'), s'.noMore);
  }

  lemma MgrUses(c: Config, s: State)
    requires TableInv(c, s) && CountInv(s) && PhaseInv(c, s) && Shape(c, s) && MgrCan(c, s)
    ensures Work(c, MgrDo(c, s)) + 1 <= Work(c, s)
  {
    hide MgrDo, MgrNext, At, MgrRank, WakeAll, CookSum, DelSum, MainRank, TableInv, CountInv, PhaseInv, GoodConfig,
      ReadyCost, ClaimCost, Avail, MgrCan;
    MgrEffect(c, s);
    MgrRankDrops(c, s);
    MgrPolls(c, s);
    DelSumWake(s.dels);
    AtLess(|s.ready|, ReadyCost(c));
  }

  // ---------------------------------------------------------------- all steps

  lemma MainUses(c: Config, s: State)
    requires Shape(c, s) && MainCan(s)
    ensures Work(c, MainDo(s)) + 1 <= Work(c, s)
  {
    assert MainRank(c, MainDo(s).main) + 1 <= MainRank(c, s.main);
    hide At, CookSum, DelSum, MgrRank, MainRank, GoodConfig, ReadyCost, ClaimCost;
  }

  lemma SpuriousUses(c: Config, s: State, l: Label, s': State)
    requires Next(c, s, l, s') && Spurious(l)
    ensures Work(c, s') <= Work(c, s) + 7
  {
    if l.SpuriousDel? { DelSumUpdate(s.dels, l.i, s.dels[l.i].(pc := DelRelock)); }
    hide At, CookSum, DelSum, GoodConfig, MainRank, ReadyCost, ClaimCost;
  }

  lemma ClaimFrame(s: State, s': State)
    requires ClaimInv(s) && s'.cooks == s.cooks && s'.next == s.next && s'.ogc >= s.ogc && (s.noMore ==> s'.noMore)
    ensures ClaimInv(s')
  {
    forall i: nat | i < |s.cooks| ensures ClaimOK(s', s'.cooks[i]) {
      assert ClaimOK(s, s.cooks[i]);
    }
  }

  lemma ClaimStep(c: Config, s: State, l: Label, s': State)
    requires LockInv(s) && UnitsOK(s) && TableInv(c, s) && ClaimInv(s) && Next(c, s, l, s')
    ensures ClaimInv(s')
  {
    hide LockInv, UnitsOK, ClaimInv, TableInv, GoodConfig, MgrDo, CookDo, DelDo, MgrCan, CookCan, DelCan;
    match l
    case Cook(i) => ClaimCook(s, i);
    case Mgr =>
      MgrEffect(c, s);
      ClaimFrame(s, s');
    case Del(i) =>
      DelEffect(c, s, i);
      ClaimFrame(s, s');
    case _ => ClaimFrame(s, s');
  }

  // Idle steps cost nothing, spurious wake-ups give back a few units, every other step
  // uses up at least one.
  lemma StepUses(c: Config, s: State, l: Label, s': State)
    requires Inv(c, s) && ClaimInv(s) && Next(c, s, l, s')
    ensures ClaimInv(s')
    ensures Work(c, s') + One(!Idle(s, l) && !Spurious(l)) <= Work(c, s) + 7 * One(Spurious(l))
  {
    assert LockInv(s) && UnitsOK(s) && TableInv(c, s) && CountInv(s) && PhaseInv(c, s) && DelWakeInv(s);
    hide Inv, LockInv, UnitsOK, TableInv, CountInv, PhaseInv, DelWakeInv, ClaimInv, Work, MgrDo, CookDo, DelDo, Polling;
    ClaimStep(c, s, l, s');
    match l
    case Mgr => MgrUses(c, s);
    case Cook(i) => CookUses(c, s, i);
    case Del(i) => DelUses(c, s, i);
    case Main => MainUses(c, s);
    case _ => SpuriousUses(c, s, l, s');
  }

  // ---------------------------------------------------------------- runs

  lemma WorkIsNatural(c: Config, s: State)
    requires Inv(c, s)
    ensures Work(c, s) >= 0
  {
    hide Inv, At, CookSum, DelSum, MgrRank, MainRank, ClaimCost, ReadyCost;
    NoMoreThanReceived(c, s);
    AtNatural(|c.orders| - s.next, ClaimCost(c));
    AtNatural(|s.ready|, ReadyCost(c));
  }

  lemma NoMoreThanReceived(c: Config, s: State)
    requires Inv(c, s)
    ensures |s.table| <= |c.orders| && s.next <= |c.orders|
  {
    assert TableInv(c, s);
  }

  lemma AtNatural(k: int, w: nat)
    requires k >= 0
    ensures At(k, w) >= 0
  {
  }

  // The steps among the first n that are neither polling nor spurious, and the spurious ones.
  function BusySteps(run: seq<State>, ls: seq<Label>, n: nat): nat
    requires n <= |ls| <= |run|
  {
    if n == 0 then 0 else BusySteps(run, ls, n - 1) + One(!Idle(run[n - 1], ls[n - 1]) && !Spurious(ls[n - 1]))
  }

  function SpuriousSteps(ls: seq<Label>, n: nat): nat
    requires n <= |ls|
  {
    if n == 0 then 0 else SpuriousSteps(ls, n - 1) + One(Spurious(ls[n - 1]))
  }

  lemma {:induction false} WorkIsUsed(c: Config, run: seq<State>, ls: seq<Label>, n: nat)
    requires IsRun(c, run, ls) && n <= |ls|
    ensures ClaimInv(run[n])
    ensures Work(c, run[n]) + BusySteps(run, ls, n) <= Work(c, run[0]) + 7 * SpuriousSteps(ls, n)
  {
    hide Work, Next, Inv, Idle, Spurious;
    if n == 0 {
      assert forall i: nat :: i < |run[0].cooks| ==> run[0].cooks[i] == Outer;
    } else {
      WorkIsUsed(c, run, ls, n - 1);
      RunSafe(c, run, ls, n - 1);
      assert Next(c, run[n - 1], ls[n - 1], run[n - 1 + 1]);
      hide ClaimInv, Init;
      StepUses(c, run[n - 1], ls[n - 1], run[n]);
    }
  }

  lemma {:induction false} StartSums(c: Config, cooks: seq<CookPc>, dels: seq<Deliverer>)
    requires forall i :: 0 <= i < |cooks| ==> cooks[i] == Outer
    requires forall i :: 0 <= i < |dels| ==> dels[i].pc == DLock
    ensures CookSum(c, cooks, false, false) == 9 * |cooks| && DelSum(dels) == 7 * |dels|
    decreases |cooks| + |dels|
  {
    if cooks == [] && dels == [] {
    } else if cooks != [] {
      StartSums(c, cooks[1..], dels);
    } else {
      StartSums(c, [], dels[1..]);
    }
  }

  // No schedule keeps the shop busy for ever: the steps that are not polling are bounded
  // by the number of orders and threads, and a few for each spurious wake-up.
  lemma BusyIsBounded(c: Config, run: seq<State>, ls: seq<Label>)
    requires IsRun(c, run, ls)
    ensures BusySteps(run, ls, |ls|)
      <= 3 * |c.orders| + |c.orders| * ClaimCost(c) + 10 * c.cooks + 8 * |c.tids| + 13 + 7 * SpuriousSteps(ls, |ls|)
  {
    WorkIsUsed(c, run, ls, |ls|);
    RunSafe(c, run, ls, |ls|);
    WorkIsNatural(c, run[|ls|]);
    StartSums(c, run[0].cooks, run[0].dels);
    StartWork(c, run[0]);
    hide Inv, Work, Next, Init, BusySteps, SpuriousSteps;
  }

  lemma StartWork(c: Config, s: State)
    requires Init(c, s)
    ensures Work(c, s) == 3 * |c.orders| + |c.orders| * ClaimCost(c) + 10 * c.cooks + 8 * |c.tids| + 13
  {
    StartSums(c, s.cooks, s.dels);
    assert At(0, ReadyCost(c)) == 0;
    hide CookSum, DelSum, ClaimCost, ReadyCost, GoodConfig;
  }

  lemma Longer(c: Config, run: seq<State>, ls: seq<Label>, l: Label, s': State)
    requires IsRun(c, run, ls) && Next(c, run[|ls|], l, s')
    ensures IsRun(c, run + [s'], ls + [l])
  {
    hide Init, Next;
    var run', ls' := run + [s'], ls + [l];
    forall k | 0 <= k < |ls'|
      ensures Next(c, run'[k], ls'[k], run'[k + 1])
    {
      if k < |ls| { assert Next(c, run[k], ls[k], run[k + 1]); }
    }
  }

  lemma OneMore(c: Config, run: seq<State>, ls: seq<Label>) returns (l: Label, s': State)
    requires IsRun(c, run, ls) && !Rest(c, run[|ls|])
    ensures Next(c, run[|ls|], l, s') && !Spurious(l) && 0 <= Work(c, s') < Work(c, run[|ls|])
  {
    var s := run[|ls|];
    RunSafe(c, run, ls, |ls|);
    WorkIsUsed(c, run, ls, |ls|);
    assert Shape(c, s);
    hide Work, Inv, Shape, Do, Can, IsRun, Idle, Spurious, ClaimInv;
    l :| Can(c, s, l) && !Spurious(l) && !Idle(s, l);
    s' := Do(c, s, l);
    assert Next(c, s, l, s');
    hide Next;
    StepUses(c, s, l, s');
    InvStep(c, s, l, s');
    WorkIsNatural(c, s');
  }

  // Any run can go on, without spurious wake-ups, to one at rest, and there every order
  // has been delivered.
  lemma {:induction false} ComesToRest(c: Config, run: seq<State>, ls: seq<Label>)
    returns (run': seq<State>, ls': seq<Label>)
    requires IsRun(c, run, ls)
    ensures IsRun(c, run', ls') && run <= run' && ls <= ls' && forall j :: |ls| <= j < |ls'| ==> !Spurious(ls'[j])
    ensures Rest(c, run'[|ls'|]) && multiset(run'[|ls'|].delivered) == multiset(c.orders)
    decreases Work(c, run[|ls|])
  {
    hide Work, Rest, Next, Spurious;
    if Rest(c, run[|ls|]) {
      run', ls' := run, ls;
      Quiescence(c, run, ls);
    } else {
      var l, s' := OneMore(c, run, ls);
      Longer(c, run, ls, l, s');
      run', ls' := ComesToRest(c, run + [s'], ls + [l]);
    }
  }

  // The deliverers that no spurious wake-up has helped since no_more_orders was set.
  function Unrescued(c: Config, ls: seq<Label>, k: nat): set<nat> {
    set i: nat | i < |c.tids| && !Rescued(ls, k, |ls|, i)
  }

  lemma StillRescued(c: Config, ls: seq<Label>, ls': seq<Label>, k: nat)
    requires ls <= ls'
    ensures Unrescued(c, ls', k) <= Unrescued(c, ls, k)
  {
    forall i: nat | Rescued(ls, k, |ls|, i) ensures Rescued(ls', k, |ls'|, i) {
      var j: nat :| k < j < |ls| && ls[j] == SpuriousDel(i);
      assert ls'[j] == SpuriousDel(i);
    }
  }

  lemma WakeIsNext(c: Config, s: State, i: nat)
    requires Shape(c, s) && i < |s.dels| && s.dels[i].pc == DelAsleep
    ensures Next(c, s, SpuriousDel(i), Do(c, s, SpuriousDel(i)))
  {
    hide GoodConfig;
  }

  // Waking up a deliverer that sleeps at rest.
  lemma Wake(c: Config, run: seq<State>, ls: seq<Label>, k: nat)
    returns (i: nat, run': seq<State>, ls': seq<Label>)
    requires IsRun(c, run, ls) && Rest(c, run[|ls|]) && run[|ls|].main != Served
    requires k < |ls| && ls[k] == Mgr && run[k].mgr == SetNoMore
    ensures IsRun(c, run', ls') && run <= run' && ls <= ls'
    ensures i in Unrescued(c, ls, k) && i !in Unrescued(c, ls', k)
  {
    hide Next, Init, Inv, Rest, Sum, GoodConfig;
    var s := run[|ls|];
    Quiescence(c, run, ls);
    RunSafe(c, run, ls, |ls|);
    i := s.main.i;
    Parts(c, s);
    hide TableInv, OrderInv, Conserved, BagsInv, PhaseInv, DelWakeInv, MgrWakeInv, CookUnits, DelUnits, SharedUnits;
    WakeIsNext(c, s, i);
    CaughtForGood(c, run, ls, k, |ls|, i);
    var l := SpuriousDel(i);
    Longer(c, run, ls, l, Do(c, s, l));
    run', ls' := run + [Do(c, s, l)], ls + [l];
    assert ls'[|ls|] == l;
  }

  lemma {:induction false} ServedInTheEnd(c: Config, run: seq<State>, ls: seq<Label>, k: nat)
    returns (run': seq<State>, ls': seq<Label>)
    requires IsRun(c, run, ls) && k < |ls| && ls[k] == Mgr && run[k].mgr == SetNoMore
    ensures IsRun(c, run', ls') && run <= run' && ls <= ls' && run'[|ls'|].main == Served
    decreases Unrescued(c, ls, k)
  {
    run', ls' := ComesToRest(c, run, ls);
    StillRescued(c, ls, ls', k);
    hide Rest, Rescued, Unrescued;
    if run'[|ls'|].main != Served {
      var i, run1, ls1 := Wake(c, run', ls', k);
      StillRescued(c, ls', ls1, k);
      run', ls' := ServedInTheEnd(c, run1, ls1, k);
    }
  }

  // Any run can go on to one in which main has been served: spurious wake-ups help every
  // deliverer that sleeps.
  lemma CanBeServed(c: Config, run: seq<State>, ls: seq<Label>) returns (run': seq<State>, ls': seq<Label>)
    requires IsRun(c, run, ls)
    ensures IsRun(c, run', ls') && run <= run' && ls <= ls' && run'[|ls'|].main == Served
  {
    var run1, ls1 := ComesToRest(c, run, ls);
    var k := ServedUnlessCaught(c, run1, ls1);
    hide *;
    run', ls' := ServedInTheEnd(c, run1, ls1, k);
  }
}
