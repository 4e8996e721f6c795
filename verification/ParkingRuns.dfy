// Results about whole runs of the parking lot.
module ParkingRuns {
  import opened Counting
  import opened Parking
  import opened ParkingInv

  // The token count: what is in the temporary area is what has been announced and not
  // fetched, plus what an owner is about to announce, plus the vehicle the attendant
  // has come for.
  lemma Tokens(c: Config, run: seq<State>, ls: seq<Label>, k: Kind)
    requires IsRun(c, run, ls)
    ensures var s, lane := run[|ls|], On(run[|ls|], k);
      && lane.count == lane.tokens + One(TokenTaken(lane.att)) + Count(ToPost(k), s.owners)
      && lane.accepted == lane.count + lane.parked == Count(Taken(k), s.owners)
      && lane.parked + lane.places + One(lane.att.StoreCount?) == Lot(c, k)
      && 0 <= lane.count <= Temp(c, k) && lane.accepted <= Temp(c, k) + Lot(c, k)
  {
    RunSafe(c, run, ls, |ls|);
  }

  // The test `count > 0` never fails, so an attendant gives up only when its lot is full.
  lemma TestNeverFails(c: Config, run: seq<State>, ls: seq<Label>, k: Kind)
    requires IsRun(c, run, ls)
    ensures var lane := On(run[|ls|], k);
      && (lane.att.TestCount? ==> lane.att.seen > 0)
      && (lane.att.Quit? ==> lane.parked == Lot(c, k) && lane.accepted > Lot(c, k))
  {
    RunSafe(c, run, ls, |ls|);
  }

  // Waiting for sem_charge never blocks.
  lemma ChargeNeverBlocks(c: Config, run: seq<State>, ls: seq<Label>, k: Kind)
    requires IsRun(c, run, ls) && On(run[|ls|], k).att.ChargeWait?
    ensures AttendantCan(run[|ls|], k)
  {
    RunSafe(c, run, ls, |ls|);
  }

  // A vehicle is turned away only from a full temporary area, and admitted only to one
  // with room.
  lemma TurnedAwayIffFull(c: Config, run: seq<State>, ls: seq<Label>, i: nat)
    requires IsRun(c, run, ls) && i < |run[|ls|].owners|
    ensures var s, pc := run[|ls|], run[|ls|].owners[i];
      && (pc.ShmPost? && !pc.taken ==> On(s, pc.kind).count == Temp(c, pc.kind))
      && (pc.StoreTemp? ==> On(s, pc.kind).count < Temp(c, pc.kind))
  {
    RunSafe(c, run, ls, |ls|);
    var s := run[|ls|];
    assert OwnersInv(c, s) && TurnedAway(c, s, s.owners[i]) && OwnerSees(s, s.owners[i]);
    hide IsRun, LocksInv, LaneInv;
  }

  // ---------------------------------------------------------------- standstill

  ghost predicate Stuck(c: Config, s: State) {
    forall l: Label :: !Can(c, s, l)
  }

  // An attendant that has given up has filled its lot; one that waits has nothing left
  // to park.
  predicate LaneAtRest(c: Config, s: State, k: Kind) {
    var lane := On(s, k);
    if lane.accepted > Lot(c, k)
    then lane.att.Quit? && lane.places == 0 && lane.parked == Lot(c, k)
    else lane.att.NewWait? && lane.tokens == 0 && lane.count == 0 && lane.parked == lane.accepted
  }

  // Neither an owner nor main can go on, and no attendant is in their way.
  ghost predicate OwnersStuck(c: Config, s: State) {
    && (forall l: Label :: !l.Attendant? ==> !Can(c, s, l))
    && !AttInShm(s.car.att) && !AttInShm(s.truck.att)
  }

  // An attendant inside the shared-memory section can always go on.
  lemma AttendantsOut(c: Config, s: State)
    requires Inv(c, s) && Stuck(c, s)
    ensures OwnersStuck(c, s)
  {
    assert !Can(c, s, Attendant(Car)) && !Can(c, s, Attendant(Truck));
  }

  lemma ShmFree(c: Config, s: State)
    requires Inv(c, s) && OwnersStuck(c, s)
    ensures s.shm == 1
  {
    assert !Can(c, s, Main);
    forall i | 0 <= i < |s.owners| ensures !InShm(s.owners[i]) {
      assert !Can(c, s, Owner(i, Car));
    }
    CountBounds(InShm, s.owners);
  }

  lemma EntranceFree(c: Config, s: State)
    requires Inv(c, s) && OwnersStuck(c, s)
    ensures s.entrance == 1
  {
    ShmFree(c, s);
    forall i | 0 <= i < |s.owners| ensures !AtEntrance(s.owners[i]) {
      assert !Can(c, s, Owner(i, Car));
    }
    CountBounds(AtEntrance, s.owners);
  }

  lemma OwnersGone(c: Config, s: State)
    requires Inv(c, s) && OwnersStuck(c, s)
    ensures forall i: nat :: i < |s.owners| ==> s.owners[i].Gone?
    ensures s.main.JoinCar? || s.main.JoinTruck? || s.main.Done?
  {
    ShmFree(c, s);
    EntranceFree(c, s);
    assert !Can(c, s, Main);
    forall i: nat | i < |s.owners| ensures s.owners[i].Gone? || s.owners[i].Unborn? {
      assert !Can(c, s, Owner(i, Car));
    }
  }

  lemma LanesAtRest(c: Config, s: State, k: Kind)
    requires Inv(c, s) && Stuck(c, s)
    ensures LaneAtRest(c, s, k)
  {
    AttendantsOut(c, s);
    ShmFree(c, s);
    OwnersGone(c, s);
    CountBounds(ToPost(k), s.owners);
    assert !Can(c, s, Attendant(k));
  }

  // Where the program comes to rest all owners have left; per kind the lot is exactly
  // full if more vehicles were accepted than it holds, and otherwise every accepted
  // vehicle is parked.  main ends exactly when both lots overflow.
  lemma Standstill(c: Config, run: seq<State>, ls: seq<Label>)
    requires IsRun(c, run, ls) && Stuck(c, run[|ls|])
    ensures var s := run[|ls|];
      && (forall i: nat :: i < |s.owners| ==> s.owners[i].Gone?)
      && LaneAtRest(c, s, Car) && LaneAtRest(c, s, Truck)
      && (s.main.Done? <==> s.car.accepted > c.lotCar && s.truck.accepted > c.lotTruck)
  {
    var s := run[|ls|];
    RunSafe(c, run, ls, |ls|);
    AttendantsOut(c, s);
    OwnersGone(c, s);
    LanesAtRest(c, s, Car);
    LanesAtRest(c, s, Truck);
    JoinedBoth(c, run, ls, |ls|);
    assert !Can(c, s, Main);
  }

  lemma {:induction false} JoinedBoth(c: Config, run: seq<State>, ls: seq<Label>, k: nat)
    requires IsRun(c, run, ls) && k < |run|
    ensures run[k].main.JoinTruck? || run[k].main.Done? ==> run[k].car.att.Quit?
    ensures run[k].main.Done? ==> run[k].truck.att.Quit?
  {
    if k == 0 {
    } else {
      JoinedBoth(c, run, ls, k - 1);
      assert Next(c, run[k - 1], ls[k - 1], run[k - 1 + 1]);
    }
  }

  // main goes on only past owners that have left.
  predicate OwnersJoined(s: State) {
    && (s.main.JoinOwner? ==> forall j: nat :: j < s.main.i && j < |s.owners| ==> s.owners[j].Gone?)
    && (s.main.JoinCar? || s.main.JoinTruck? || s.main.Done? ==>
          forall j: nat :: j < |s.owners| ==> s.owners[j].Gone?)
  }

  lemma JoinStep(c: Config, s: State, l: Label, s': State)
    requires OwnersJoined(s) && Next(c, s, l, s')
    ensures OwnersJoined(s')
  {
  }

  lemma {:induction false} JoinedOwners(c: Config, run: seq<State>, ls: seq<Label>, k: nat)
    requires IsRun(c, run, ls) && k < |run|
    ensures OwnersJoined(run[k])
  {
    hide OwnersJoined, Next;
    if k == 0 {
      MainStarts(c, run, ls);
    } else {
      JoinedOwners(c, run, ls, k - 1);
      assert Next(c, run[k - 1], ls[k - 1], run[k - 1 + 1]);
      JoinStep(c, run[k - 1], ls[k - 1], run[k]);
    }
  }

  // main ends only when all owners have left and both attendants have quit.
  lemma DoneMeansAllOver(c: Config, run: seq<State>, ls: seq<Label>)
    requires IsRun(c, run, ls) && run[|ls|].main.Done?
    ensures forall j: nat :: j < |run[|ls|].owners| ==> run[|ls|].owners[j].Gone?
    ensures run[|ls|].car.att.Quit? && run[|ls|].truck.att.Quit?
  {
    JoinedOwners(c, run, ls, |ls|);
    JoinedBoth(c, run, ls, |ls|);
    hide IsRun;
  }

  // ---------------------------------------------------------------- termination

  function OwnerRank(pc: OwnerPc): nat {
    match pc
    case Unborn => 24
    case Choose => 23
    case EntranceWait(_) => 22
    case ShmWait(_) => 21
    case ReadTemp(_) => 20
    case TestFull(_, _) => 19
    case StoreTemp(_, _) => 18
    case PostNew(_) => 17
    case ShmPost(_, _) => 2
    case EntrancePost(_, _) => 1
    case Gone(_, _) => 0
  }

  function AttRank(pc: AttendantPc): nat {
    match pc
    case LaneWait => 11
    case ReadCount => 10
    case ChargeWait(_) => 9
    case TestCount(_) => 8
    case TryLot(_) => 7
    case StoreCount(_) => 6
    case ChargePost => 5
    case LanePost => 4
    case QuitCharge => 4
    case NewWait => 3
    case QuitLane => 3
    case Quit => 0
  }

  function MainRank(pc: MainPc, n: nat): nat {
    match pc
    case Create(i) => if i <= n then 4 * (n - i) + n + 4 else 0
    case MainWait(i) => if i < n then 4 * (n - i) + n + 3 else 0
    case MainRead(i) => if i < n then 4 * (n - i) + n + 2 else 0
    case MainPost(i) => if i < n then 4 * (n - i) + n + 1 else 0
    case JoinOwner(i) => if i <= n then n - i + 3 else 0
    case JoinCar => 2
    case JoinTruck => 1
    case Done => 0
  }

  function OwnerRanks(owners: seq<OwnerPc>): nat {
    if owners == [] then 0 else OwnerRank(owners[0]) + OwnerRanks(owners[1..])
  }

  function LaneMeasure(lane: Lane): nat {
    12 * lane.tokens + AttRank(lane.att)
  }

  function Measure(s: State): nat {
    OwnerRanks(s.owners) + LaneMeasure(s.car) + LaneMeasure(s.truck) + MainRank(s.main, |s.owners|)
  }

  lemma {:induction false} RanksUpdate(owners: seq<OwnerPc>, i: nat, pc: OwnerPc)
    requires i < |owners|
    ensures OwnerRanks(owners[i := pc]) == OwnerRanks(owners) - OwnerRank(owners[i]) + OwnerRank(pc)
  {
    if i == 0 {
      assert owners[0 := pc][1..] == owners[1..];
    } else {
      RanksUpdate(owners[1..], i - 1, pc);
      assert owners[i := pc][1..] == owners[1..][i - 1 := pc];
    }
  }

  // Where main is in its loops.
  predicate MainBounds(s: State) {
    match s.main
    case Create(i) => i <= |s.owners|
    case MainWait(i) => i < |s.owners|
    case MainRead(i) => i < |s.owners|
    case MainPost(i) => i < |s.owners|
    case JoinOwner(i) => i <= |s.owners|
    case _ => true
  }

  lemma OwnerDrops(c: Config, s: State, i: nat, draw: Kind)
    requires OwnerCan(s, i)
    ensures var s' := OwnerDo(c, s, i, draw);
      && s'.main == s.main && s'.owners == s.owners[i := s'.owners[i]]
      && OwnerRank(s'.owners[i]) + LaneMeasure(s'.car) + LaneMeasure(s'.truck)
           < OwnerRank(s.owners[i]) + LaneMeasure(s.car) + LaneMeasure(s.truck)
  {
  }

  lemma OwnerDecreases(c: Config, s: State, i: nat, draw: Kind)
    requires OwnerCan(s, i)
    ensures Measure(OwnerDo(c, s, i, draw)) < Measure(s)
  {
    OwnerDrops(c, s, i, draw);
    RanksUpdate(s.owners, i, OwnerDo(c, s, i, draw).owners[i]);
    hide OwnerRanks, OwnerRank, LaneMeasure, OwnerDo;
  }

  lemma AttendantDecreases(s: State, k: Kind)
    requires AttendantCan(s, k)
    ensures Measure(AttendantDo(s, k)) < Measure(s)
  {
    hide OwnerRanks, MainRank;
  }

  lemma MainDecreases(c: Config, s: State)
    requires MainCan(c, s) && MainBounds(s)
    requires s.main.Create? && s.main.i < |s.owners| ==> s.owners[s.main.i] == Unborn
    ensures Measure(MainDo(c, s)) < Measure(s) && MainBounds(MainDo(c, s))
  {
    if s.main.Create? && s.main.i < |s.owners| {
      RanksUpdate(s.owners, s.main.i, Choose);
    }
    hide OwnerRanks, LaneMeasure;
  }

  // Every step uses up the measure: the parking program cannot run for ever.
  lemma StepDecreases(c: Config, s: State, l: Label, s': State)
    requires Inv(c, s) && Next(c, s, l, s') && MainBounds(s)
    ensures Measure(s') < Measure(s) && MainBounds(s')
  {
    match l
    case Owner(i, draw) =>
      hide Measure, Inv;
      OwnerDrops(c, s, i, draw);
      OwnerDecreases(c, s, i, draw);
    case Attendant(k) =>
      hide Measure, Inv;
      AttendantDecreases(s, k);
    case Main =>
      hide Measure, LocksInv, LaneInv;
      MainDecreases(c, s);
  }

  lemma StepAt(c: Config, run: seq<State>, ls: seq<Label>, n: nat)
    requires IsRun(c, run, ls) && n + 1 < |run|
    ensures n < |ls| && Inv(c, run[n]) && Next(c, run[n], ls[n], run[n + 1])
  {
    RunSafe(c, run, ls, n);
    hide Inv, Next;
  }

  lemma MainStarts(c: Config, run: seq<State>, ls: seq<Label>)
    requires IsRun(c, run, ls)
    ensures run != [] && MainBounds(run[0]) && OwnersJoined(run[0])
  {
    assert Init(c, run[0]);
  }

  lemma {:induction false} RunBounded(c: Config, run: seq<State>, ls: seq<Label>, k: nat)
    requires IsRun(c, run, ls) && k < |run|
    ensures MainBounds(run[k]) && k + Measure(run[k]) <= Measure(run[0])
  {
    hide *;
    if k == 0 {
      MainStarts(c, run, ls);
    } else {
      RunBounded(c, run, ls, k - 1);
      StepAt(c, run, ls, k - 1);
      StepDecreases(c, run[k - 1], ls[k - 1], run[k]);
    }
  }
}
