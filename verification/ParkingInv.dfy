// What every reachable state of the parking lot satisfies.
module ParkingInv {
  import opened Counting
  import opened Parking

  // ---------------------------------------------------------------- who holds what

  predicate AtEntrance(pc: OwnerPc) {
    pc.ShmWait? || InShm(pc) || pc.EntrancePost?
  }

  predicate InShm(pc: OwnerPc) {
    pc.ReadTemp? || pc.TestFull? || pc.StoreTemp? || pc.PostNew? || pc.ShmPost?
  }

  predicate AttInShm(pc: AttendantPc) {
    !pc.NewWait? && !pc.LaneWait? && !pc.Quit?
  }

  predicate Charging(pc: AttendantPc) {
    pc.TestCount? || pc.TryLot? || pc.StoreCount? || pc.ChargePost? || pc.QuitCharge?
  }

  predicate MainInShm(pc: MainPc) {
    pc.MainRead? || pc.MainPost?
  }

  // The attendant has taken a token and not parked a vehicle for it.
  predicate TokenTaken(pc: AttendantPc) {
    pc.LaneWait? || pc.ReadCount? || pc.ChargeWait? || pc.TestCount? || pc.TryLot? || pc.StoreCount?
    || pc.QuitCharge? || pc.QuitLane? || pc.Quit?
  }

  predicate CarToPost(pc: OwnerPc) { pc == PostNew(Car) }

  predicate TruckToPost(pc: OwnerPc) { pc == PostNew(Truck) }

  // Counted in shared memory, token not posted yet.
  function ToPost(k: Kind): OwnerPc -> bool {
    if k == Car then CarToPost else TruckToPost
  }

  predicate CarTaken(pc: OwnerPc) {
    pc == PostNew(Car) || ((pc.ShmPost? || pc.EntrancePost? || pc.Gone?) && pc.kind == Car && pc.taken)
  }

  predicate TruckTaken(pc: OwnerPc) {
    pc == PostNew(Truck) || ((pc.ShmPost? || pc.EntrancePost? || pc.Gone?) && pc.kind == Truck && pc.taken)
  }

  // Owners whose vehicle has been accepted.
  function Taken(k: Kind): OwnerPc -> bool {
    if k == Car then CarTaken else TruckTaken
  }

  predicate OwnerSees(s: State, pc: OwnerPc) {
    && (pc.TestFull? ==> pc.seen == On(s, pc.kind).count)
    && (pc.StoreTemp? ==> pc.seen == On(s, pc.kind).count)
  }

  predicate AttSees(pc: AttendantPc, count: int) {
    pc.ChargeWait? || pc.TestCount? || pc.TryLot? || pc.StoreCount? ==> pc.seen == count
  }

  // ---------------------------------------------------------------- invariants

  predicate LocksInv(s: State) {
    && s.entrance + Count(AtEntrance, s.owners) == 1
    && s.shm + Count(InShm, s.owners) + One(AttInShm(s.car.att)) + One(AttInShm(s.truck.att))
       + One(MainInShm(s.main)) == 1
  }

  // Tokens, temporary area, lot and free places of one kind.
  predicate LaneInv(c: Config, s: State, k: Kind) {
    var lane := On(s, k);
    && lane.charge + One(Charging(lane.att)) == 1
    && lane.count == lane.tokens + One(TokenTaken(lane.att)) + Count(ToPost(k), s.owners)
    && lane.accepted == lane.count + lane.parked
    && lane.parked + lane.places + One(lane.att.StoreCount?) == Lot(c, k)
    && 0 <= lane.count <= Temp(c, k)
    && AttSees(lane.att, lane.count)
    && (lane.att.QuitCharge? || lane.att.QuitLane? || lane.att.Quit? ==> lane.places == 0)
    && lane.accepted == Count(Taken(k), s.owners)
  }

  predicate OwnersInv(c: Config, s: State) {
    && |s.owners| == c.owners
    && (forall i: nat :: i < |s.owners| ==> OwnerSees(s, s.owners[i]))
    && (forall i: nat :: i < |s.owners| && s.owners[i].StoreTemp? ==> s.owners[i].seen < Temp(c, s.owners[i].kind))
    && (forall i: nat :: i < |s.owners| ==> (s.owners[i] == Unborn <==> i >= Created(s.main, c.owners)))
    && (forall i: nat :: i < |s.owners| ==> TurnedAway(c, s, s.owners[i]))
  }

  // An owner that has just been turned away has found the temporary area full.
  predicate TurnedAway(c: Config, s: State, pc: OwnerPc) {
    pc.ShmPost? && !pc.taken ==> On(s, pc.kind).count == Temp(c, pc.kind)
  }

  // How many owner threads main has created.
  function Created(pc: MainPc, n: nat): nat {
    match pc
    case Create(i) => i
    case MainWait(i) => i + 1
    case MainRead(i) => i + 1
    case MainPost(i) => i + 1
    case _ => n
  }

  predicate Inv(c: Config, s: State) {
    LocksInv(s) && LaneInv(c, s, Car) && LaneInv(c, s, Truck) && OwnersInv(c, s)
  }

  lemma InvInit(c: Config, s: State)
    requires Init(c, s)
    ensures Inv(c, s)
  {
    CountBounds(AtEntrance, s.owners);
    CountBounds(InShm, s.owners);
    CountBounds(CarToPost, s.owners);
    CountBounds(TruckToPost, s.owners);
    CountBounds(CarTaken, s.owners);
    CountBounds(TruckTaken, s.owners);
  }

  predicate Recounted(p: OwnerPc -> bool, owners: seq<OwnerPc>, i: nat, pc: OwnerPc)
    requires i < |owners|
  {
    Count(p, owners[i := pc]) == Count(p, owners) - One(p(owners[i])) + One(p(pc))
  }

  // How the counts follow a move of owner i.
  lemma Recount(owners: seq<OwnerPc>, i: nat, pc: OwnerPc)
    requires i < |owners|
    ensures var after := owners[i := pc];
      && Count(AtEntrance, after) == Count(AtEntrance, owners) - One(AtEntrance(owners[i])) + One(AtEntrance(pc))
      && Count(InShm, after) == Count(InShm, owners) - One(InShm(owners[i])) + One(InShm(pc))
      && (forall k :: Recounted(ToPost(k), owners, i, pc)) && (forall k :: Recounted(Taken(k), owners, i, pc))
  {
    CountUpdate(AtEntrance, owners, i, pc);
    CountUpdate(InShm, owners, i, pc);
    forall k ensures Recounted(ToPost(k), owners, i, pc) {
      CountUpdate(ToPost(k), owners, i, pc);
    }
    forall k ensures Recounted(Taken(k), owners, i, pc) {
      CountUpdate(Taken(k), owners, i, pc);
    }
  }

  // Nobody else is inside the shared-memory section of owner i.
  lemma OwnerAlone(s: State, i: nat)
    requires LocksInv(s) && i < |s.owners| && InShm(s.owners[i])
    ensures forall j: nat :: j < |s.owners| && j != i ==> !InShm(s.owners[j])
    ensures !AttInShm(s.car.att) && !AttInShm(s.truck.att) && !MainInShm(s.main) && s.shm == 0
  {
    CountOne(InShm, s.owners, i);
    forall j: nat | j < |s.owners| && j != i ensures !InShm(s.owners[j]) {
      if InShm(s.owners[j]) {
        CountTwo(InShm, s.owners, if i < j then i else j, if i < j then j else i);
      }
    }
  }

  lemma AttendantAlone(s: State, k: Kind)
    requires LocksInv(s) && AttInShm(On(s, k).att)
    ensures forall j: nat :: j < |s.owners| ==> !InShm(s.owners[j])
    ensures s.shm == 0
  {
    CountBounds(InShm, s.owners);
  }

  lemma OwnerLocks(c: Config, s: State, i: nat, draw: Kind)
    requires LocksInv(s) && OwnerCan(s, i)
    ensures LocksInv(OwnerDo(c, s, i, draw))
  {
    hide Count, ToPost, Taken;
    var s' := OwnerDo(c, s, i, draw);
    Recount(s.owners, i, s'.owners[i]);
  }

  // A step that leaves the lane of kind k alone, and its owners where they count.
  lemma LaneFrame(c: Config, s: State, s': State, k: Kind)
    requires LaneInv(c, s, k) && On(s', k) == On(s, k)
    requires Count(ToPost(k), s'.owners) == Count(ToPost(k), s.owners)
    requires Count(Taken(k), s'.owners) == Count(Taken(k), s.owners)
    ensures LaneInv(c, s', k)
  {
    hide Count;
  }

  // The owner accepts its vehicle.
  lemma OwnerStores(c: Config, s: State, i: nat, draw: Kind, k: Kind)
    requires LaneInv(c, s, k) && OwnersInv(c, s) && OwnerCan(s, i) && s.owners[i].StoreTemp? && s.owners[i].kind == k
    requires !AttInShm(s.car.att) && !AttInShm(s.truck.att)
    ensures LaneInv(c, OwnerDo(c, s, i, draw), k)
  {
    var s' := OwnerDo(c, s, i, draw);
    CountUpdate(ToPost(k), s.owners, i, s'.owners[i]);
    CountUpdate(Taken(k), s.owners, i, s'.owners[i]);
    assert OwnerSees(s, s.owners[i]);
    hide Count, OwnersInv;
  }

  // It posts the token for it.
  lemma OwnerPosts(c: Config, s: State, i: nat, draw: Kind, k: Kind)
    requires LaneInv(c, s, k) && OwnerCan(s, i) && s.owners[i] == PostNew(k)
    ensures LaneInv(c, OwnerDo(c, s, i, draw), k)
  {
    var s' := OwnerDo(c, s, i, draw);
    CountUpdate(ToPost(k), s.owners, i, s'.owners[i]);
    CountUpdate(Taken(k), s.owners, i, s'.owners[i]);
    hide Count;
  }

  lemma OwnerEnters(c: Config, s: State, i: nat, draw: Kind, k: Kind)
    requires Inv(c, s) && OwnerCan(s, i) && Enters(s.owners[i], k)
    ensures LaneInv(c, OwnerDo(c, s, i, draw), k)
  {
    hide LocksInv, LaneInv, OwnersInv, OwnerDo;
    if s.owners[i].StoreTemp? {
      OwnerAlone(s, i);
      OwnerStores(c, s, i, draw, k);
    } else {
      OwnerPosts(c, s, i, draw, k);
    }
  }

  predicate Enters(pc: OwnerPc, k: Kind) {
    (pc.StoreTemp? || pc.PostNew?) && pc.kind == k
  }

  lemma OwnerPasses(c: Config, s: State, i: nat, draw: Kind, k: Kind)
    requires OwnerCan(s, i) && !Enters(s.owners[i], k)
    ensures var s' := OwnerDo(c, s, i, draw);
      && On(s', k) == On(s, k) && s'.owners == s.owners[i := s'.owners[i]]
      && ToPost(k)(s'.owners[i]) == ToPost(k)(s.owners[i]) && Taken(k)(s'.owners[i]) == Taken(k)(s.owners[i])
  {
  }

  lemma OwnerLane(c: Config, s: State, i: nat, draw: Kind, k: Kind)
    requires Inv(c, s) && OwnerCan(s, i)
    ensures LaneInv(c, OwnerDo(c, s, i, draw), k)
  {
    if Enters(s.owners[i], k) {
      OwnerEnters(c, s, i, draw, k);
    } else {
      hide OwnerDo, ToPost, Taken, Count, LocksInv, OwnersInv, LaneInv;
      var s' := OwnerDo(c, s, i, draw);
      OwnerPasses(c, s, i, draw, k);
      Recount(s.owners, i, s'.owners[i]);
      LaneFrame(c, s, s', k);
    }
  }

  // The owner that moves sees what is there.
  lemma OwnerOwn(c: Config, s: State, i: nat, draw: Kind)
    requires OwnersInv(c, s) && OwnerCan(s, i) && s.car.count <= c.tempCar && s.truck.count <= c.tempTruck
    ensures var s', pc := OwnerDo(c, s, i, draw), OwnerDo(c, s, i, draw).owners[i];
      && s'.owners == s.owners[i := pc] && s'.main == s.main && OwnerSees(s', pc) && TurnedAway(c, s', pc)
      && (pc.StoreTemp? ==> pc.seen < Temp(c, pc.kind)) && (pc == Unborn <==> s.owners[i] == Unborn)
      && (InShm(s.owners[i]) || (s'.car.count == s.car.count && s'.truck.count == s.truck.count))
  {
    assert OwnerSees(s, s.owners[i]);
  }

  lemma OwnerOwners(c: Config, s: State, i: nat, draw: Kind)
    requires Inv(c, s) && OwnerCan(s, i)
    ensures OwnersInv(c, OwnerDo(c, s, i, draw))
  {
    assert s.car.count <= c.tempCar && s.truck.count <= c.tempTruck;
    var s' := OwnerDo(c, s, i, draw);
    OwnerOwn(c, s, i, draw);
    if InShm(s.owners[i]) { OwnerAlone(s, i); }
    hide LocksInv, LaneInv, OwnerDo, OwnerCan;
    forall j: nat | j < |s'.owners| ensures OwnerSees(s', s'.owners[j]) && TurnedAway(c, s', s'.owners[j]) {
      assert OwnerSees(s, s.owners[j]) && TurnedAway(c, s, s.owners[j]);
    }
  }

  lemma AttendantLocks(s: State, k: Kind)
    requires LocksInv(s) && AttendantCan(s, k)
    ensures LocksInv(AttendantDo(s, k))
  {
    hide Count;
  }

  lemma AttendantOwnLane(c: Config, s: State, k: Kind)
    requires LaneInv(c, s, k) && AttendantCan(s, k)
    ensures LaneInv(c, AttendantDo(s, k), k)
  {
    hide Count;
  }

  lemma AttendantOtherLane(s: State, k: Kind, other: Kind)
    requires AttendantCan(s, k) && other != k
    ensures On(AttendantDo(s, k), other) == On(s, other) && AttendantDo(s, k).owners == s.owners
  {
  }

  lemma AttendantLane(c: Config, s: State, k: Kind, other: Kind)
    requires Inv(c, s) && AttendantCan(s, k)
    ensures LaneInv(c, AttendantDo(s, k), other)
  {
    hide Count, LocksInv, OwnersInv, LaneInv, AttendantDo, ToPost, Taken;
    if other == k {
      AttendantOwnLane(c, s, k);
    } else {
      AttendantOtherLane(s, k, other);
      LaneFrame(c, s, AttendantDo(s, k), other);
    }
  }

  lemma AttendantOwners(c: Config, s: State, k: Kind)
    requires Inv(c, s) && AttendantCan(s, k)
    ensures OwnersInv(c, AttendantDo(s, k))
  {
    var s' := AttendantDo(s, k);
    if AttInShm(On(s, k).att) { AttendantAlone(s, k); }
    hide Count, LocksInv, LaneInv;
    forall j: nat | j < |s'.owners| ensures OwnerSees(s', s'.owners[j]) && TurnedAway(c, s', s'.owners[j]) {
      assert OwnerSees(s, s.owners[j]) && TurnedAway(c, s, s.owners[j]);
    }
  }

  // main creates the next owner, who is not there yet anywhere.
  predicate Creates(c: Config, s: State) {
    s.main.Create? && s.main.i < |s.owners| && s.owners[s.main.i] == Unborn
  }

  lemma CreatesLocks(c: Config, s: State)
    requires LocksInv(s) && Creates(c, s)
    ensures LocksInv(MainDo(c, s))
  {
    Recount(s.owners, s.main.i, Choose);
    hide Count, ToPost, Taken;
  }

  lemma CreatesLane(c: Config, s: State, k: Kind)
    requires LaneInv(c, s, k) && Creates(c, s)
    ensures LaneInv(c, MainDo(c, s), k)
  {
    Recount(s.owners, s.main.i, Choose);
    assert !ToPost(k)(Unborn) && !ToPost(k)(Choose) && !Taken(k)(Unborn) && !Taken(k)(Choose);
    hide Count, ToPost, Taken, LaneInv;
    LaneFrame(c, s, MainDo(c, s), k);
  }

  lemma CreatesOwners(c: Config, s: State)
    requires OwnersInv(c, s) && Creates(c, s)
    ensures OwnersInv(c, MainDo(c, s))
  {
    var s' := MainDo(c, s);
    forall j: nat | j < |s'.owners| ensures OwnerSees(s', s'.owners[j]) && TurnedAway(c, s', s'.owners[j]) {
      assert OwnerSees(s, s.owners[j]) && TurnedAway(c, s, s.owners[j]);
    }
  }

  lemma MainCreates(c: Config, s: State)
    requires Inv(c, s) && s.main.Create? && s.main.i < |s.owners|
    ensures Inv(c, MainDo(c, s))
  {
    assert Creates(c, s);
    hide LocksInv, LaneInv, OwnersInv, Creates, MainDo;
    CreatesLocks(c, s);
    CreatesLane(c, s, Car);
    CreatesLane(c, s, Truck);
    CreatesOwners(c, s);
  }

  lemma MainGoesOn(c: Config, s: State)
    requires Inv(c, s) && MainCan(c, s) && !(s.main.Create? && s.main.i < |s.owners|)
    ensures Inv(c, MainDo(c, s))
  {
    hide Count, LaneInv, OwnersInv;
    var s' := MainDo(c, s);
    LaneFrame(c, s, s', Car);
    LaneFrame(c, s, s', Truck);
    MainOwners(c, s);
  }

  lemma MainOwners(c: Config, s: State)
    requires OwnersInv(c, s) && MainCan(c, s) && !(s.main.Create? && s.main.i < |s.owners|)
    ensures OwnersInv(c, MainDo(c, s))
  {
    var s' := MainDo(c, s);
    forall j: nat | j < |s'.owners| ensures OwnerSees(s', s'.owners[j]) && TurnedAway(c, s', s'.owners[j]) {
      assert OwnerSees(s, s.owners[j]) && TurnedAway(c, s, s.owners[j]);
    }
  }

  lemma MainKeeps(c: Config, s: State)
    requires Inv(c, s) && MainCan(c, s)
    ensures Inv(c, MainDo(c, s))
  {
    hide *;
    if s.main.Create? && s.main.i < |s.owners| {
      MainCreates(c, s);
    } else {
      MainGoesOn(c, s);
    }
  }

  lemma InvStep(c: Config, s: State, l: Label, s': State)
    requires Inv(c, s) && Next(c, s, l, s')
    ensures Inv(c, s')
  {
    hide LocksInv, LaneInv, OwnersInv, OwnerDo, AttendantDo, MainDo;
    match l
    case Owner(i, draw) =>
      OwnerLocks(c, s, i, draw);
      OwnerLane(c, s, i, draw, Car);
      OwnerLane(c, s, i, draw, Truck);
      OwnerOwners(c, s, i, draw);
    case Attendant(k) =>
      AttendantLocks(s, k);
      AttendantLane(c, s, k, Car);
      AttendantLane(c, s, k, Truck);
      AttendantOwners(c, s, k);
    case Main => MainKeeps(c, s);
  }

  // Every state of every run satisfies the invariant.
  lemma {:induction false} RunSafe(c: Config, run: seq<State>, ls: seq<Label>, k: nat)
    requires IsRun(c, run, ls) && k < |run|
    ensures Inv(c, run[k])
  {
    if k == 0 {
      InvInit(c, run[0]);
    } else {
      RunSafe(c, run, ls, k - 1);
      hide Inv, Next;
      assert Next(c, run[k - 1], ls[k - 1], run[k - 1 + 1]);
      InvStep(c, run[k - 1], ls[k - 1], run[k]);
    }
  }
}
