// The parking lot as a step relation: main, any number of owners, one attendant per
// kind of vehicle, one step per semaphore call or access to shared memory.
module Parking {

  datatype Kind = Car | Truck

  // Owner threads, and for each kind the size of the temporary area and of the lot; the
  // program runs with 100, 8, 4, 8 and 4.
  datatype Config = Config(owners: nat, tempCar: nat, tempTruck: nat, lotCar: nat, lotTruck: nat)

  function Temp(c: Config, k: Kind): nat {
    if k == Car then c.tempCar else c.tempTruck
  }

  function Lot(c: Config, k: Kind): nat {
    if k == Car then c.lotCar else c.lotTruck
  }

  datatype OwnerPc =
    | Unborn
    | Choose                            // 230: the random draw
    | EntranceWait(kind: Kind)          // 233
    | ShmWait(kind: Kind)               // 236, 253
    | ReadTemp(kind: Kind)              // 237, 254
    | TestFull(kind: Kind, seen: int)   // 239, 255
    | StoreTemp(kind: Kind, seen: int)  // 241-242, 257-258
    | PostNew(kind: Kind)               // 244, 259
    | ShmPost(kind: Kind, taken: bool)  // 250, 264
    | EntrancePost(kind: Kind, taken: bool)  // 266
    | Gone(kind: Kind, taken: bool)

  datatype AttendantPc =
    | NewWait                 // 279, 308
    | LaneWait                // 281, 309: sem_shm
    | ReadCount               // 282, 310
    | ChargeWait(seen: int)   // 284, 311
    | TestCount(seen: int)    // 286, 312: count > 0
    | TryLot(seen: int)       // 286, 312: sem_trywait
    | StoreCount(seen: int)   // 288-289, 314-315
    | ChargePost              // 291, 316
    | LanePost                // 292, 317
    | QuitCharge              // 298, 321
    | QuitLane                // 299, 322
    | Quit

  datatype MainPc =
    | Create(i: nat)     // 152-171
    | MainWait(i: nat)   // 173
    | MainRead(i: nat)   // 176-178
    | MainPost(i: nat)   // 180
    | JoinOwner(i: nat)  // 184-186
    | JoinCar            // 187-189, t == 0
    | JoinTruck          // 187-189, t == 1
    | Done               // 191

  // What belongs to one kind: the count in shared memory, the "new vehicle" semaphore,
  // the free places, the charge semaphore and the attendant; accepted and parked are
  // how many vehicles have entered the temporary area and the lot so far.
  datatype Lane = Lane(count: int, tokens: nat, places: nat, charge: nat, att: AttendantPc, accepted: nat, parked: nat)

  datatype State = State(entrance: nat, shm: nat, car: Lane, truck: Lane, owners: seq<OwnerPc>, main: MainPc)

  function On(s: State, k: Kind): Lane {
    if k == Car then s.car else s.truck
  }

  function With(s: State, k: Kind, lane: Lane): State {
    if k == Car then s.(car := lane) else s.(truck := lane)
  }

  function EmptyLane(c: Config, k: Kind): Lane {
    Lane(0, 0, Lot(c, k), 1, NewWait, 0, 0)
  }

  predicate Init(c: Config, s: State) {
    && s.entrance == 1 && s.shm == 1
    && s.car == EmptyLane(c, Car) && s.truck == EmptyLane(c, Truck)
    && |s.owners| == c.owners && (forall i :: 0 <= i < |s.owners| ==> s.owners[i] == Unborn)
    && s.main == Create(0)
  }

  datatype Label = Owner(i: nat, draw: Kind) | Attendant(kind: Kind) | Main

  predicate OwnerCan(s: State, i: nat) {
    i < |s.owners| &&
    match s.owners[i]
    case Unborn => false
    case EntranceWait(_) => s.entrance > 0
    case ShmWait(_) => s.shm > 0
    case Gone(_, _) => false
    case _ => true
  }

  function OwnerTo(s: State, i: nat, pc: OwnerPc): State
    requires i < |s.owners|
  {
    s.(owners := s.owners[i := pc])
  }

  function OwnerDo(c: Config, s: State, i: nat, draw: Kind): State
    requires OwnerCan(s, i)
  {
    match s.owners[i]
    case Choose => OwnerTo(s, i, EntranceWait(draw))
    case EntranceWait(k) => OwnerTo(s, i, ShmWait(k)).(entrance := s.entrance - 1)
    case ShmWait(k) => OwnerTo(s, i, ReadTemp(k)).(shm := s.shm - 1)
    case ReadTemp(k) => OwnerTo(s, i, TestFull(k, On(s, k).count))
    case TestFull(k, seen) => OwnerTo(s, i, if seen < Temp(c, k) then StoreTemp(k, seen) else ShmPost(k, false))
    case StoreTemp(k, seen) =>
      With(OwnerTo(s, i, PostNew(k)), k, On(s, k).(count := seen + 1, accepted := On(s, k).accepted + 1))
    case PostNew(k) => With(OwnerTo(s, i, ShmPost(k, true)), k, On(s, k).(tokens := On(s, k).tokens + 1))
    case ShmPost(k, ok) => OwnerTo(s, i, EntrancePost(k, ok)).(shm := s.shm + 1)
    case EntrancePost(k, ok) => OwnerTo(s, i, Gone(k, ok)).(entrance := s.entrance + 1)
  }

  predicate AttendantCan(s: State, k: Kind) {
    match On(s, k).att
    case NewWait => On(s, k).tokens > 0
    case LaneWait => s.shm > 0
    case ChargeWait(_) => On(s, k).charge > 0
    case Quit => false
    case _ => true
  }

  function AttendantDo(s: State, k: Kind): State
    requires AttendantCan(s, k)
  {
    var lane := On(s, k);
    match lane.att
    case NewWait => With(s, k, lane.(att := LaneWait, tokens := lane.tokens - 1))
    case LaneWait => With(s, k, lane.(att := ReadCount)).(shm := s.shm - 1)
    case ReadCount => With(s, k, lane.(att := ChargeWait(lane.count)))
    case ChargeWait(seen) => With(s, k, lane.(att := TestCount(seen), charge := lane.charge - 1))
    case TestCount(seen) => With(s, k, lane.(att := if seen > 0 then TryLot(seen) else QuitCharge))
    case TryLot(seen) =>
      if lane.places > 0 then With(s, k, lane.(att := StoreCount(seen), places := lane.places - 1))
      else With(s, k, lane.(att := QuitCharge))
    case StoreCount(seen) => With(s, k, lane.(att := ChargePost, count := seen - 1, parked := lane.parked + 1))
    case ChargePost => With(s, k, lane.(att := LanePost, charge := lane.charge + 1))
    case LanePost => With(s, k, lane.(att := NewWait)).(shm := s.shm + 1)
    case QuitCharge => With(s, k, lane.(att := QuitLane, charge := lane.charge + 1))
    case QuitLane => With(s, k, lane.(att := Quit)).(shm := s.shm + 1)
  }

  predicate MainCan(c: Config, s: State) {
    match s.main
    case MainWait(_) => s.shm > 0
    case JoinOwner(i) => i < |s.owners| ==> s.owners[i].Gone?
    case JoinCar => s.car.att.Quit?
    case JoinTruck => s.truck.att.Quit?
    case Done => false
    case _ => true
  }

  function MainDo(c: Config, s: State): State
    requires MainCan(c, s)
  {
    match s.main
    case Create(i) =>
      if i < |s.owners| then OwnerTo(s, i, Choose).(main := MainWait(i)) else s.(main := JoinOwner(0))
    case MainWait(i) => s.(main := MainRead(i), shm := s.shm - 1)
    case MainRead(i) => s.(main := MainPost(i))
    case MainPost(i) => s.(main := Create(i + 1), shm := s.shm + 1)
    case JoinOwner(i) => s.(main := if i < |s.owners| then JoinOwner(i + 1) else JoinCar)
    case JoinCar => s.(main := JoinTruck)
    case JoinTruck => s.(main := Done)
  }

  predicate Can(c: Config, s: State, l: Label) {
    match l
    case Owner(i, _) => OwnerCan(s, i)
    case Attendant(k) => AttendantCan(s, k)
    case Main => MainCan(c, s)
  }

  function Do(c: Config, s: State, l: Label): State
    requires Can(c, s, l)
  {
    match l
    case Owner(i, draw) => OwnerDo(c, s, i, draw)
    case Attendant(k) => AttendantDo(s, k)
    case Main => MainDo(c, s)
  }

  predicate Next(c: Config, s: State, l: Label, s': State) {
    Can(c, s, l) && s' == Do(c, s, l)
  }

  predicate IsRun(c: Config, run: seq<State>, ls: seq<Label>) {
    && |run| == |ls| + 1
    && Init(c, run[0])
    && forall k :: 0 <= k < |ls| ==> Next(c, run[k], ls[k], run[k + 1])
  }
}
