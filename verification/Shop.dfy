// One session of the shop server as a step relation: the manager, any number of cooks
// and deliverers, and main, which joins them; one step per lock, semaphore or condition
// call and per access to a shared variable.
module Shop {

  const MAX_ORDER: nat := 100

  datatype Option<+T> = None | Some(value: T)

  // The orders the client sends before DONE, by id, and each deliverer's thread id
  // modulo 100 as registered in thread_stat_arr.
  datatype Config = Config(orders: seq<int>, cooks: nat, tids: seq<nat>)

  predicate GoodConfig(c: Config) {
    && |c.orders| <= MAX_ORDER && c.cooks >= 1 && |c.tids| >= 1
    && forall i, j :: 0 <= i < j < |c.orders| ==> c.orders[i] != c.orders[j]
  }

  datatype Status = Waiting | Cooking | Cooked | Delivering

  datatype Order = Order(id: int, status: Status)

  // ---------------------------------------------------------------- program counters

  datatype MgrPc =
    | Read                 // 470
    | WriteOrder           // 487-503
    | Publish              // 505, 513: order_counter_global++
    | SetGlobal            // 478
    | InitCounter          // 479
    | Head                 // 519
    | BroadcastNew         // 520
    | SetNoMore            // 521
    | MgrReturned
    | ConsumeLock          // 525
    | TestReady            // 526
    | ConsumeWait          // 527: about to sleep, still holding the mutex
    | MgrAsleep            // on can_consume
    | MgrRelock            // woken, must take the mutex again
    | QueueWait            // 530
    | Dequeue              // 532
    | CounterWait(id: int) // 533
    | QueuePost(id: int)   // 534
    | Search(id: int)      // 536-537
    | DeliveryLock(id: int)    // 539
    | DelQueueWait(id: int)    // 540
    | Enqueue(id: int)     // 541
    | CountUp              // 548
    | DelQueuePost         // 549
    | BroadcastDeliver     // 551
    | DeliveryUnlock       // 552
    | ConsumeUnlock        // 556

  datatype CookPc =
    | Outer                  // 570
    | FullLock               // 571
    | SpinNext               // 572, first read
    | SpinMore               // 572, second read
    | BodyNext               // 574, first read
    | BodyMore               // 574, second read
    | ReturnUnlock           // 575
    | IfNext                 // 580
    | ContinueUnlock         // 581
    | TakeNext               // 585
    | FullUnlock(cur: nat)   // 586
    | ShovelWait(cur: nat)   // 589: sem_kurek
    | OvenWait(cur: nat)     // 590
    | EntranceWait(cur: nat) // 591
    | CookingLock(cur: nat)  // 594
    | SetCooking(cur: nat)   // 595
    | CookingUnlock(cur: nat)  // 596
    | InOven(cur: nat)       // 598-599
    | EntrancePost(cur: nat) // 602
    | OvenPost(cur: nat)     // 603
    | ShovelPost(cur: nat)   // 604
    | ExitWait(cur: nat)     // 605
    | ExitPost(cur: nat)     // 606
    | CookedLock(cur: nat)   // 608
    | SetCooked(cur: nat)    // 609
    | CookedUnlock(cur: nat) // 611
    | ReadyLock(cur: nat)    // 614
    | EnqueueReady(cur: nat) // 615
    | SignalConsume          // 616
    | ReadyUnlock            // 617
    | CookMessage            // 619-626
    | CookReturned

  datatype DelPc =
    | DLock                  // 642
    | TestQueue              // 643, first read
    | TestMore               // 643, second read
    | DeliverWait            // 644: about to sleep, still holding the mutex
    | DelAsleep              // on can_deliver
    | DelRelock              // woken, must take the mutex again
    | IfQueue                // 647, first read
    | IfMore                 // 647, second read
    | ExitUnlock             // 648
    | TakeWait               // 652
    | Take                   // 653
    | TakePost(id: int)      // 654
    | DUnlock(id: int)       // 655
    | StatusLock(id: int)    // 657
    | Lookup(id: int)        // 658-666
    | StatusUnlock           // 667
    | IfCounter              // 669
    | MotoWait               // 670
    | TallyWait              // 677
    | Tally                  // 687-692
    | TallyPost              // 693
    | Deliver                // 694-699
    | MotoPost               // 700-702
    | DelReturned

  // A deliverer's program counter and arr[0..counter).
  datatype Deliverer = Deliverer(pc: DelPc, bag: seq<int>)

  datatype MainPc =
    | JoinManager      // 402
    | JoinCook(i: nat) // 409-412
    | JoinDeliverer(i: nat)  // 419-422
    | SendServed       // 154
    | Served

  // ---------------------------------------------------------------- shared state

  // Free units of every mutex and semaphore.
  datatype Locks = Locks(
    full: int,       // _order_full_mutex
    status: int,     // order_status_mutex
    consume: int,    // consume_mutex
    delivery: int,   // _delivery_mutex
    shovel: int, oven: int, entrance: int, exit: int,
    queue: int,      // queue_lock
    delQueue: int,   // delivery_queue_lock
    moto: int,       // available_motorcycle
    cookCounter: int,
    tally: int)      // thread_stat_lock

  // What has happened so far; read by the properties, never by the program.
  datatype Log = Log(
    cooked: seq<int>,    // ids put in the ready queue, in order
    fetched: seq<int>,   // ids the manager has taken from it, in order
    forwarded: seq<int>, // ids put in the delivery queue, in order
    taken: seq<int>,     // ids the deliverers have taken from it, in order
    takers: seq<nat>,    // who has taken each of them
    tallies: seq<nat>,   // who has been through lines 687-692, in order
    carriers: seq<nat>)  // who has made each delivery

  datatype State = State(
    locks: Locks,
    table: seq<Order>,   // the filled part of orders[]
    next: nat, ogc: nat, // ogc: order_counter_global
    noMore: bool,
    ready: seq<int>, deliv: seq<int>,
    pCounts: seq<nat>,
    mgr: MgrPc, counter: nat,
    cooks: seq<CookPc>,
    dels: seq<Deliverer>,
    main: MainPc,
    delivered: seq<int>, // history: ids in the order of delivery
    log: Log)

  predicate Shape(c: Config, s: State) {
    GoodConfig(c) && |s.cooks| == c.cooks && |s.dels| == |c.tids| == |s.pCounts|
  }

  predicate Init(c: Config, s: State) {
    && Shape(c, s)
    && s.locks == Locks(1, 1, 1, 1, 3, 6, 1, 1, 1, 1, |c.tids|, 0, 1)
    && s.table == [] && s.next == 0 && s.ogc == 0 && !s.noMore
    && s.ready == [] && s.deliv == [] && s.delivered == []
    && (forall i :: 0 <= i < |s.pCounts| ==> s.pCounts[i] == 0)
    && s.mgr == Read && s.counter == 0
    && (forall i :: 0 <= i < |s.cooks| ==> s.cooks[i] == Outer)
    && (forall i :: 0 <= i < |s.dels| ==> s.dels[i] == Deliverer(DLock, []))
    && s.main == JoinManager
    && s.log == Log([], [], [], [], [], [], [])
  }

  // ---------------------------------------------------------------- lookups

  // An entry the loops on lines 536 and 659 are looking for.
  predicate Sought(o: Order, id: int, status: Option<Status>) {
    o.id == id && (status.Some? ==> o.status == status.value)
  }

  // The first entry below n with this id, and with this status where one is asked for.
  function FindOrder(table: seq<Order>, n: nat, id: int, status: Option<Status>): (r: Option<nat>)
    requires n <= |table|
    ensures r.Some? ==> r.value < n && Sought(table[r.value], id, status)
    ensures forall k :: 0 <= k < (if r.Some? then r.value else n) ==> !Sought(table[k], id, status)
  {
    if n == 0 then None
    else
      match FindOrder(table, n - 1, id, status)
      case Some(k) => Some(k)
      case None => if Sought(table[n - 1], id, status) then Some(n - 1) else None
  }

  // The loop on line 687: the first registered deliverer with this thread id.
  function FindTid(tids: seq<nat>, n: nat, tid: nat): (r: Option<nat>)
    requires n <= |tids|
    ensures r.Some? ==> r.value < n && tids[r.value] == tid
    ensures forall k :: 0 <= k < (if r.Some? then r.value else n) ==> tids[k] != tid
  {
    if n == 0 then None
    else
      match FindTid(tids, n - 1, tid)
      case Some(k) => Some(k)
      case None => if tids[n - 1] == tid then Some(n - 1) else None
  }

  // Each thread's step is given by where the thread goes, what it does to the locks,
  // and what it does to the shared variables; line numbers are with the counters above.

  // ---------------------------------------------------------------- manager

  predicate MgrCan(c: Config, s: State) {
    match s.mgr
    case MgrReturned => false
    case ConsumeLock => s.locks.consume > 0
    case MgrAsleep => false
    case MgrRelock => s.locks.consume > 0
    case QueueWait => s.locks.queue > 0
    case Dequeue => s.ready != []
    case CounterWait(_) => s.locks.cookCounter > 0
    case Search(_) => s.ogc <= |s.table|
    case DeliveryLock(_) => s.locks.delivery > 0
    case DelQueueWait(_) => s.locks.delQueue > 0
    case WriteOrder => |s.table| < |c.orders|
    case _ => true
  }

  // Until DONE has been read and cook_counter initialised.
  predicate Reading(pc: MgrPc) {
    pc.Read? || pc.WriteOrder? || pc.Publish? || pc.SetGlobal? || pc.InitCounter?
  }

  function MgrNext(c: Config, s: State): MgrPc
    requires MgrCan(c, s)
  {
    match s.mgr
    case Read => if |s.table| < |c.orders| then WriteOrder else SetGlobal
    case WriteOrder => Publish
    case Publish => Read
    case SetGlobal => InitCounter
    case InitCounter => Head
    case Head => if s.counter == s.ogc then BroadcastNew else ConsumeLock
    case BroadcastNew => SetNoMore
    case SetNoMore => MgrReturned
    case ConsumeLock => TestReady
    case TestReady => if s.ready == [] then ConsumeWait else QueueWait
    case ConsumeWait => MgrAsleep
    case MgrRelock => TestReady
    case QueueWait => Dequeue
    case Dequeue => CounterWait(s.ready[0])
    case CounterWait(id) => QueuePost(id)
    case QueuePost(id) => Search(id)
    case Search(id) => if FindOrder(s.table, s.ogc, id, None).Some? then DeliveryLock(id) else ConsumeUnlock
    case DeliveryLock(id) => DelQueueWait(id)
    case DelQueueWait(id) => Enqueue(id)
    case Enqueue(id) => CountUp
    case CountUp => DelQueuePost
    case DelQueuePost => BroadcastDeliver
    case BroadcastDeliver => DeliveryUnlock
    case DeliveryUnlock => ConsumeUnlock
    case ConsumeUnlock => Head
  }

  function MgrLocks(l: Locks, pc: MgrPc, ogc: nat): Locks {
    match pc
    case InitCounter => l.(cookCounter := ogc)
    case ConsumeLock => l.(consume := l.consume - 1)
    case ConsumeWait => l.(consume := l.consume + 1)
    case MgrRelock => l.(consume := l.consume - 1)
    case QueueWait => l.(queue := l.queue - 1)
    case CounterWait(_) => l.(cookCounter := l.cookCounter - 1)
    case QueuePost(_) => l.(queue := l.queue + 1)
    case DeliveryLock(_) => l.(delivery := l.delivery - 1)
    case DelQueueWait(_) => l.(delQueue := l.delQueue - 1)
    case DelQueuePost => l.(delQueue := l.delQueue + 1)
    case DeliveryUnlock => l.(delivery := l.delivery + 1)
    case ConsumeUnlock => l.(consume := l.consume + 1)
    case _ => l
  }

  function MgrDo(c: Config, s: State): State
    requires MgrCan(c, s)
  {
    var pc := s.mgr;
    s.(mgr := MgrNext(c, s),
       locks := MgrLocks(s.locks, pc, s.ogc),
       table := if pc == WriteOrder then s.table + [Order(c.orders[|s.table|], Waiting)] else s.table,
       ogc := if pc == Publish then s.ogc + 1 else if pc == SetGlobal then |s.table| else s.ogc,
       noMore := s.noMore || pc == SetNoMore,
       ready := if pc == Dequeue then s.ready[1..] else s.ready,
       deliv := if pc.Enqueue? then s.deliv + [pc.id] else s.deliv,
       counter := if pc == CountUp then s.counter + 1 else s.counter,
       dels := if pc == BroadcastDeliver then WakeAll(s.dels) else s.dels,
       log := if pc == Dequeue then s.log.(fetched := s.log.fetched + [MgrNext(c, s).id])
              else if pc.Enqueue? then s.log.(forwarded := s.log.forwarded + [pc.id])
              else s.log)
  }

  function WakeAll(dels: seq<Deliverer>): (r: seq<Deliverer>)
    ensures |r| == |dels|
    ensures forall i :: 0 <= i < |dels| ==>
      r[i] == if dels[i].pc == DelAsleep then dels[i].(pc := DelRelock) else dels[i]
  {
    if dels == [] then []
    else [if dels[0].pc == DelAsleep then dels[0].(pc := DelRelock) else dels[0]] + WakeAll(dels[1..])
  }

  // ---------------------------------------------------------------- cooks

  predicate CookCan(s: State, i: nat) {
    i < |s.cooks| &&
    match s.cooks[i]
    case FullLock => s.locks.full > 0
    case ShovelWait(_) => s.locks.shovel > 0
    case OvenWait(_) => s.locks.oven > 0
    case EntranceWait(_) => s.locks.entrance > 0
    case CookingLock(_) => s.locks.status > 0
    case SetCooking(cur) => cur < |s.table|
    case ExitWait(_) => s.locks.exit > 0
    case CookedLock(_) => s.locks.status > 0
    case SetCooked(cur) => cur < |s.table|
    case ReadyLock(_) => s.locks.consume > 0
    case EnqueueReady(cur) => cur < |s.table|
    case CookReturned => false
    case _ => true
  }

  function CookNext(s: State, pc: CookPc): CookPc {
    match pc
    case Outer => if s.noMore then CookReturned else FullLock
    case FullLock => SpinNext
    case SpinNext => if s.next >= s.ogc then SpinMore else IfNext
    case SpinMore => if s.noMore then IfNext else BodyNext
    case BodyNext => if s.next >= s.ogc then BodyMore else SpinNext
    case BodyMore => if s.noMore then ReturnUnlock else SpinNext
    case ReturnUnlock => CookReturned
    case IfNext => if s.next >= s.ogc then ContinueUnlock else TakeNext
    case ContinueUnlock => Outer
    case TakeNext => FullUnlock(s.next)
    case FullUnlock(cur) => ShovelWait(cur)
    case ShovelWait(cur) => OvenWait(cur)
    case OvenWait(cur) => EntranceWait(cur)
    case EntranceWait(cur) => CookingLock(cur)
    case CookingLock(cur) => SetCooking(cur)
    case SetCooking(cur) => CookingUnlock(cur)
    case CookingUnlock(cur) => InOven(cur)
    case InOven(cur) => EntrancePost(cur)
    case EntrancePost(cur) => OvenPost(cur)
    case OvenPost(cur) => ShovelPost(cur)
    case ShovelPost(cur) => ExitWait(cur)
    case ExitWait(cur) => ExitPost(cur)
    case ExitPost(cur) => CookedLock(cur)
    case CookedLock(cur) => SetCooked(cur)
    case SetCooked(cur) => CookedUnlock(cur)
    case CookedUnlock(cur) => ReadyLock(cur)
    case ReadyLock(cur) => EnqueueReady(cur)
    case EnqueueReady(cur) => SignalConsume
    case SignalConsume => ReadyUnlock
    case ReadyUnlock => CookMessage
    case CookMessage => Outer
    case CookReturned => CookReturned
  }

  function CookLocks(l: Locks, pc: CookPc): Locks {
    match pc
    case FullLock => l.(full := l.full - 1)
    case ReturnUnlock => l.(full := l.full + 1)
    case ContinueUnlock => l.(full := l.full + 1)
    case FullUnlock(_) => l.(full := l.full + 1)
    case ShovelWait(_) => l.(shovel := l.shovel - 1)
    case OvenWait(_) => l.(oven := l.oven - 1)
    case EntranceWait(_) => l.(entrance := l.entrance - 1)
    case CookingLock(_) => l.(status := l.status - 1)
    case CookingUnlock(_) => l.(status := l.status + 1)
    case EntrancePost(_) => l.(entrance := l.entrance + 1)
    case OvenPost(_) => l.(oven := l.oven + 1)
    case ShovelPost(_) => l.(shovel := l.shovel + 1)
    case ExitWait(_) => l.(exit := l.exit - 1)
    case ExitPost(_) => l.(exit := l.exit + 1)
    case CookedLock(_) => l.(status := l.status - 1)
    case CookedUnlock(_) => l.(status := l.status + 1)
    case ReadyLock(_) => l.(consume := l.consume - 1)
    case ReadyUnlock => l.(consume := l.consume + 1)
    case _ => l
  }

  function CookTable(table: seq<Order>, pc: CookPc): seq<Order>
    requires pc.SetCooking? || pc.SetCooked? ==> pc.cur < |table|
  {
    match pc
    case SetCooking(cur) => table[cur := table[cur].(status := Cooking)]
    case SetCooked(cur) => table[cur := table[cur].(status := Cooked)]
    case _ => table
  }

  function CookDo(s: State, i: nat): State
    requires CookCan(s, i)
  {
    var pc := s.cooks[i];
    s.(cooks := s.cooks[i := CookNext(s, pc)],
       locks := CookLocks(s.locks, pc),
       table := CookTable(s.table, pc),
       next := if pc == TakeNext then s.next + 1 else s.next,
       ready := if pc.EnqueueReady? then s.ready + [s.table[pc.cur].id] else s.ready,
       mgr := if pc == SignalConsume && s.mgr == MgrAsleep then MgrRelock else s.mgr,
       log := if pc.EnqueueReady? then s.log.(cooked := s.log.cooked + [s.table[pc.cur].id]) else s.log)
  }

  // ---------------------------------------------------------------- deliverers

  predicate DelCan(s: State, i: nat) {
    i < |s.dels| &&
    match s.dels[i].pc
    case DLock => s.locks.delivery > 0
    case DelAsleep => false
    case DelRelock => s.locks.delivery > 0
    case TakeWait => s.locks.delQueue > 0
    case Take => s.deliv != []
    case StatusLock(_) => s.locks.status > 0
    case Lookup(_) => s.ogc <= |s.table|
    case MotoWait => s.locks.moto > 0
    case TallyWait => s.locks.tally > 0
    case Deliver => s.dels[i].bag != []
    case DelReturned => false
    case _ => true
  }

  function DelNext(s: State, d: Deliverer): DelPc
    requires d.pc == Take ==> s.deliv != []
  {
    match d.pc
    case DLock => TestQueue
    case TestQueue => if s.deliv == [] then TestMore else IfQueue
    case TestMore => if s.noMore then IfQueue else DeliverWait
    case DeliverWait => DelAsleep
    case DelAsleep => DelAsleep
    case DelRelock => TestQueue
    case IfQueue => if s.deliv == [] then IfMore else TakeWait
    case IfMore => if s.noMore then ExitUnlock else TakeWait
    case ExitUnlock => DelReturned
    case TakeWait => Take
    case Take => TakePost(s.deliv[0])
    case TakePost(id) => DUnlock(id)
    case DUnlock(id) => StatusLock(id)
    case StatusLock(id) => Lookup(id)
    case Lookup(_) => StatusUnlock
    case StatusUnlock => IfCounter
    case IfCounter => if |d.bag| == 1 then MotoWait else DLock
    case MotoWait => TallyWait
    case TallyWait => Tally
    case Tally => TallyPost
    case TallyPost => Deliver
    case Deliver => MotoPost
    case MotoPost => DLock
    case DelReturned => DelReturned
  }

  function DelLocks(l: Locks, pc: DelPc): Locks {
    match pc
    case DLock => l.(delivery := l.delivery - 1)
    case DeliverWait => l.(delivery := l.delivery + 1)
    case DelRelock => l.(delivery := l.delivery - 1)
    case ExitUnlock => l.(delivery := l.delivery + 1)
    case TakeWait => l.(delQueue := l.delQueue - 1)
    case TakePost(_) => l.(delQueue := l.delQueue + 1)
    case DUnlock(_) => l.(delivery := l.delivery + 1)
    case StatusLock(_) => l.(status := l.status - 1)
    case StatusUnlock => l.(status := l.status + 1)
    case MotoWait => l.(moto := l.moto - 1)
    case TallyWait => l.(tally := l.tally - 1)
    case TallyPost => l.(tally := l.tally + 1)
    case MotoPost => l.(moto := l.moto + 1)
    case _ => l
  }

  // The order the lookup under order_status_mutex finds, if it is about to run.
  function Found(s: State, pc: DelPc): Option<nat>
    requires pc.Lookup? ==> s.ogc <= |s.table|
  {
    if pc.Lookup? then FindOrder(s.table, s.ogc, pc.id, Some(Cooked)) else None
  }

  function DelBag(s: State, d: Deliverer): seq<int>
    requires d.pc.Lookup? ==> s.ogc <= |s.table|
  {
    if Found(s, d.pc).Some? then d.bag + [d.pc.id] else if d.pc == MotoPost then [] else d.bag
  }

  function DelDo(c: Config, s: State, i: nat): State
    requires Shape(c, s) && DelCan(s, i)
  {
    var d := s.dels[i];
    var found, mine := Found(s, d.pc), FindTid(c.tids, |c.tids|, c.tids[i]);
    s.(dels := s.dels[i := Deliverer(DelNext(s, d), DelBag(s, d))],
       locks := DelLocks(s.locks, d.pc),
       deliv := if d.pc == Take then s.deliv[1..] else s.deliv,
       table := if found.Some? then s.table[found.value := s.table[found.value].(status := Delivering)] else s.table,
       pCounts := if d.pc == Tally && mine.Some? then s.pCounts[mine.value := s.pCounts[mine.value] + 1] else s.pCounts,
       delivered := if d.pc == Deliver then s.delivered + [d.bag[0]] else s.delivered,
       log := if d.pc == Take then s.log.(taken := s.log.taken + [DelNext(s, d).id], takers := s.log.takers + [i])
              else if d.pc == Tally then s.log.(tallies := s.log.tallies + [i])
              else if d.pc == Deliver then s.log.(carriers := s.log.carriers + [i])
              else s.log)
  }

  // ---------------------------------------------------------------- main

  predicate MainCan(s: State) {
    match s.main
    case JoinManager => s.mgr.MgrReturned?
    case JoinCook(i) => i < |s.cooks| ==> s.cooks[i].CookReturned?
    case JoinDeliverer(i) => i < |s.dels| ==> s.dels[i].pc.DelReturned?
    case SendServed => true
    case Served => false
  }

  function MainDo(s: State): State
    requires MainCan(s)
  {
    match s.main
    case JoinManager => s.(main := JoinCook(0))
    case JoinCook(i) => s.(main := if i < |s.cooks| then JoinCook(i + 1) else JoinDeliverer(0))
    case JoinDeliverer(i) => s.(main := if i < |s.dels| then JoinDeliverer(i + 1) else SendServed)
    case SendServed => s.(main := Served)
  }

  // ---------------------------------------------------------------- steps

  datatype Label = Mgr | Cook(i: nat) | Del(i: nat) | Main | SpuriousMgr | SpuriousDel(i: nat)

  predicate Spurious(l: Label) {
    l.SpuriousMgr? || l.SpuriousDel?
  }

  predicate Can(c: Config, s: State, l: Label) {
    match l
    case Mgr => MgrCan(c, s)
    case Cook(i) => CookCan(s, i)
    case Del(i) => DelCan(s, i)
    case Main => MainCan(s)
    case SpuriousMgr => s.mgr.MgrAsleep?
    case SpuriousDel(i) => i < |s.dels| && s.dels[i].pc.DelAsleep?
  }

  function Do(c: Config, s: State, l: Label): State
    requires Shape(c, s) && Can(c, s, l)
  {
    match l
    case Mgr => MgrDo(c, s)
    case Cook(i) => CookDo(s, i)
    case Del(i) => DelDo(c, s, i)
    case Main => MainDo(s)
    case SpuriousMgr => s.(mgr := MgrRelock)
    case SpuriousDel(i) => s.(dels := s.dels[i := s.dels[i].(pc := DelRelock)])
  }

  predicate Next(c: Config, s: State, l: Label, s': State) {
    Shape(c, s) && Can(c, s, l) && s' == Do(c, s, l)
  }

  predicate IsRun(c: Config, run: seq<State>, ls: seq<Label>) {
    && |run| == |ls| + 1
    && Init(c, run[0])
    && forall k :: 0 <= k < |ls| ==> Next(c, run[k], ls[k], run[k + 1])
  }
}
