// A polite schedule: an owner enters only when both attendants have nothing to do. Under
// it nobody is turned away before a lot has overflowed, so the program can end.
module ParkingCanEnd {
  import opened Counting
  import opened Parking
  import opened ParkingInv
  import opened ParkingRuns
  import opened ParkingEnds

  // ---------------------------------------------------------------- the schedule

  predicate Calm(lane: Lane) {
    lane.att.Quit? || (lane.att.NewWait? && lane.tokens == 0)
  }

  predicate Lets(s: State, l: Label) {
    l.Owner? && l.i < |s.owners| && s.owners[l.i].EntranceWait? ==> Calm(s.car) && Calm(s.truck)
  }

  // An owner on its way to the test finds room, or an attendant that has quit.
  predicate FindsRoom(lane: Lane) {
    lane.att.Quit? || (lane.att.NewWait? && lane.tokens == 0 && lane.count == 0)
  }

  predicate Undecided(pc: OwnerPc) {
    pc.ShmWait? || pc.ReadTemp? || pc.TestFull?
  }

  predicate Refused(pc: OwnerPc) {
    (pc.ShmPost? || pc.EntrancePost? || pc.Gone?) && !pc.taken
  }

  predicate OwnerPolite(s: State, pc: OwnerPc) {
    && (Undecided(pc) ==> FindsRoom(On(s, pc.kind)))
    && (Refused(pc) ==> On(s, pc.kind).att.Quit?)
  }

  predicate Polite(s: State) {
    forall i: nat :: i < |s.owners| ==> OwnerPolite(s, s.owners[i])
  }

  // ---------------------------------------------------------------- what the schedule keeps

  lemma OneEnters(s: State, i: nat, j: nat)
    requires LocksInv(s) && i < |s.owners| && j < |s.owners| && i != j && AtEntrance(s.owners[i])
    ensures !AtEntrance(s.owners[j])
  {
    if AtEntrance(s.owners[j]) {
      CountTwo(AtEntrance, s.owners, if i < j then i else j, if i < j then j else i);
    }
  }

  // With the entrance free and the attendant of a lane waiting, the lane is empty.
  lemma CalmIsEmpty(c: Config, s: State, k: Kind)
    requires Inv(c, s) && s.entrance > 0 && Calm(On(s, k))
    ensures FindsRoom(On(s, k))
  {
    CountBounds(AtEntrance, s.owners);
    assert LaneInv(c, s, k);
    forall i | 0 <= i < |s.owners| ensures !ToPost(k)(s.owners[i]) {
      assert !AtEntrance(s.owners[i]);
    }
    CountBounds(ToPost(k), s.owners);
    hide Count, OwnersInv;
  }

  // An owner that enters finds both lanes like that.
  lemma EnterPolite(c: Config, s: State, i: nat, draw: Kind)
    requires Inv(c, s) && OwnerCan(s, i) && s.owners[i].EntranceWait? && Lets(s, Owner(i, draw))
    ensures OwnerPolite(OwnerDo(c, s, i, draw), OwnerDo(c, s, i, draw).owners[i])
  {
    CalmIsEmpty(c, s, Car);
    CalmIsEmpty(c, s, Truck);
    hide Inv;
  }

  // Whoever is on the way to the test is accepted, unless the attendant has quit.
  lemma OwnPolite(c: Config, s: State, i: nat, draw: Kind)
    requires OwnersInv(c, s) && OwnerCan(s, i) && OwnerPolite(s, s.owners[i]) && !s.owners[i].EntranceWait?
    requires c.tempCar > 0 && c.tempTruck > 0
    ensures OwnerPolite(OwnerDo(c, s, i, draw), OwnerDo(c, s, i, draw).owners[i])
  {
    assert OwnerSees(s, s.owners[i]);
    hide OwnersInv;
  }

  // What owner i does for the others: it changes a lane only at the entrance.
  lemma OtherPolite(c: Config, s: State, i: nat, draw: Kind, j: nat)
    requires LocksInv(s) && OwnerCan(s, i) && j < |s.owners| && j != i && OwnerPolite(s, s.owners[j])
    ensures OwnerPolite(OwnerDo(c, s, i, draw), s.owners[j])
  {
    var s' := OwnerDo(c, s, i, draw);
    if AtEntrance(s.owners[i]) {
      OneEnters(s, i, j);
      assert s'.car.att == s.car.att && s'.truck.att == s.truck.att;
    } else {
      assert s'.car == s.car && s'.truck == s.truck;
    }
    hide LocksInv, OwnerDo, OwnerCan;
  }

  lemma OwnerStep(c: Config, s: State, i: nat, draw: Kind)
    requires Inv(c, s) && Polite(s) && OwnerCan(s, i) && Lets(s, Owner(i, draw))
    requires c.tempCar > 0 && c.tempTruck > 0
    ensures Polite(OwnerDo(c, s, i, draw))
  {
    var s' := OwnerDo(c, s, i, draw);
    assert s'.owners == s.owners[i := s'.owners[i]];
    hide OwnerDo, OwnerCan, OwnerPolite, LaneInv, LocksInv, OwnersInv, Lets;
    if s.owners[i].EntranceWait? {
      EnterPolite(c, s, i, draw);
    } else {
      OwnPolite(c, s, i, draw);
    }
    forall j: nat | j < |s'.owners| ensures OwnerPolite(s', s'.owners[j]) {
      if j != i { OtherPolite(c, s, i, draw, j); }
    }
  }

  // An attendant that has something to do serves a lane nobody is about to test.
  lemma AttendantStep(s: State, k: Kind)
    requires Polite(s) && AttendantCan(s, k)
    ensures Polite(AttendantDo(s, k))
  {
    var s' := AttendantDo(s, k);
    forall j: nat | j < |s'.owners| ensures OwnerPolite(s', s'.owners[j]) {
      assert OwnerPolite(s, s.owners[j]);
    }
  }

  lemma MainStep(c: Config, s: State)
    requires Polite(s) && MainCan(c, s)
    ensures Polite(MainDo(c, s))
  {
    var s' := MainDo(c, s);
    forall j: nat | j < |s'.owners| ensures OwnerPolite(s', s'.owners[j]) {
      assert OwnerPolite(s, s.owners[j]);
    }
  }

  lemma PoliteStep(c: Config, s: State, l: Label, s': State)
    requires Inv(c, s) && Polite(s) && Lets(s, l) && Next(c, s, l, s') && c.tempCar > 0 && c.tempTruck > 0
    ensures Polite(s')
  {
    hide Inv, Polite, Lets, OwnerDo, AttendantDo, MainDo, OwnerCan, AttendantCan, MainCan;
    match l
    case Owner(i, draw) => OwnerStep(c, s, i, draw);
    case Attendant(k) => AttendantStep(s, k);
    case Main => MainStep(c, s);
  }

  // ---------------------------------------------------------------- it never has to stop early

  // If an attendant has something to do, then with the entrance free somebody other than
  // an owner at the entrance can go on.
  lemma SomebodyServes(c: Config, s: State, k: Kind) returns (l: Label)
    requires Inv(c, s) && s.entrance > 0 && !Calm(On(s, k))
    ensures Can(c, s, l) && !l.Owner?
  {
    assert LaneInv(c, s, Car) && LaneInv(c, s, Truck);
    if AttendantCan(s, k) {
      l := Attendant(k);
    } else {
      assert On(s, k).att.LaneWait? && s.shm == 0;
      CountBounds(AtEntrance, s.owners);
      forall i | 0 <= i < |s.owners| ensures !InShm(s.owners[i]) {
        assert !AtEntrance(s.owners[i]);
      }
      CountBounds(InShm, s.owners);
      l := if MainInShm(s.main) then Main else Attendant(if k == Car then Truck else Car);
    }
  }

  ghost predicate Halted(c: Config, s: State) {
    forall l: Label :: Lets(s, l) ==> !Can(c, s, l)
  }

  lemma HaltedIsStuck(c: Config, s: State)
    requires Inv(c, s) && Halted(c, s)
    ensures Stuck(c, s)
  {
    forall l: Label ensures !Can(c, s, l) {
      if Can(c, s, l) && !Lets(s, l) {
        var k := if Calm(s.car) then Truck else Car;
        var other := SomebodyServes(c, s, k);
        assert Lets(s, other);
        assert false;
      }
    }
  }

  // ---------------------------------------------------------------- the run

  lemma {:induction false} FollowSchedule(c: Config, run: seq<State>, ls: seq<Label>, draws: seq<Kind>)
    returns (run': seq<State>, ls': seq<Label>)
    requires IsRun(c, run, ls) && DrawnBy(run, ls, draws) && |draws| == c.owners && Polite(run[|ls|])
    requires c.tempCar > 0 && c.tempTruck > 0
    ensures IsRun(c, run', ls') && DrawnBy(run', ls', draws) && run <= run' && ls <= ls'
    ensures Polite(run'[|ls'|]) && Stuck(c, run'[|ls'|])
    decreases Measure(run[|ls|])
  {
    hide Measure, Next, Init, Can, Stuck, Halted, DrawsAs, Polite, Inv, Lets;
    RunSafe(c, run, ls, |ls|);
    if Halted(c, run[|ls|]) {
      run', ls' := run, ls;
      HaltedIsStuck(c, run[|ls|]);
    } else {
      var step := Allowed(c, run[|ls|]);
      var l, s' := OneMore(c, run, ls, draws, step);
      StillLets(run[|ls|], step, draws);
      PoliteStep(c, run[|ls|], l, s');
      Longer(c, run, ls, draws, l, s');
      run', ls' := FollowSchedule(c, run + [s'], ls + [l], draws);
    }
  }

  lemma Allowed(c: Config, s: State) returns (l: Label)
    requires !Halted(c, s)
    ensures Lets(s, l) && Can(c, s, l)
  {
    hide Lets, Can;
    l :| Lets(s, l) && Can(c, s, l);
  }

  lemma StillLets(s: State, l: Label, draws: seq<Kind>)
    requires Lets(s, l)
    ensures Lets(s, Drawing(l, draws))
  {
  }

  // Unless its attendant has quit, everybody who drew this kind has been accepted.
  lemma AllAccepted(c: Config, run: seq<State>, ls: seq<Label>, draws: seq<Kind>, k: Kind)
    requires IsRun(c, run, ls) && DrawnBy(run, ls, draws) && |draws| == c.owners
    requires Polite(run[|ls|]) && AllGone(run[|ls|]) && !On(run[|ls|], k).att.Quit?
    ensures On(run[|ls|], k).accepted == Draws(draws, k)
  {
    var s := run[|ls|];
    Drawn(c, run, ls, draws, |ls|);
    Tokens(c, run, ls, k);
    AcceptedBounds(c, run, ls, draws, k);
    hide IsRun, Count;
    forall i | 0 <= i < |draws| && OfKind(k)(draws[i]) ensures Taken(k)(s.owners[i]) {
      assert OwnerDrew(c, s, s.owners[i], draws[i]) && OwnerPolite(s, s.owners[i]);
    }
    CountInto(OfKind(k), draws, Taken(k), s.owners);
  }

  lemma CanEnd(c: Config, draws: seq<Kind>) returns (run: seq<State>, ls: seq<Label>)
    requires |draws| == c.owners && EnoughDrawn(c, draws) && c.tempCar > 0 && c.tempTruck > 0
    ensures IsRun(c, run, ls) && DrawnBy(run, ls, draws) && run[|ls|].main.Done?
  {
    var start := Start(c);
    assert Polite(start[0]);
    run, ls := FollowSchedule(c, start, [], draws);
    Standstill(c, run, ls);
    hide IsRun, Stuck, DrawnBy, Polite;
    if !run[|ls|].car.att.Quit? {
      AllAccepted(c, run, ls, draws, Car);
    }
    if !run[|ls|].truck.att.Quit? {
      AllAccepted(c, run, ls, draws, Truck);
    }
  }

  lemma NeedsRoom(c: Config, run: seq<State>, ls: seq<Label>, k: Kind)
    requires IsRun(c, run, ls) && run[|ls|].main.Done?
    ensures Temp(c, k) > 0
  {
    JoinedBoth(c, run, ls, |ls|);
    TestNeverFails(c, run, ls, k);
    Tokens(c, run, ls, k);
    hide IsRun;
  }

  ghost predicate SomeScheduleEnds(c: Config, draws: seq<Kind>) {
    exists run: seq<State>, ls: seq<Label> :: IsRun(c, run, ls) && DrawnBy(run, ls, draws) && run[|ls|].main.Done?
  }

  // For given draws some schedule ends if and only if more of each kind are drawn than
  // its lot holds, and both temporary areas have room for a vehicle.
  lemma SomeScheduleEndsIff(c: Config, draws: seq<Kind>)
    requires |draws| == c.owners
    ensures SomeScheduleEnds(c, draws) <==> EnoughDrawn(c, draws) && c.tempCar > 0 && c.tempTruck > 0
  {
    hide Next, Init, DrawsAs, EnoughDrawn;
    if SomeScheduleEnds(c, draws) {
      var run: seq<State>, ls: seq<Label> :| IsRun(c, run, ls) && DrawnBy(run, ls, draws) && run[|ls|].main.Done?;
      EndsByDraws(c, run, ls, draws);
      NeedsRoom(c, run, ls, Car);
      NeedsRoom(c, run, ls, Truck);
    }
    if EnoughDrawn(c, draws) && c.tempCar > 0 && c.tempTruck > 0 {
      var run, ls := CanEnd(c, draws);
    }
  }
}
