// When the parking program ends: what the owners' draws decide, and what the schedule does.
module ParkingEnds {
  import opened Counting
  import opened Parking
  import opened ParkingInv
  import opened ParkingRuns

  // ---------------------------------------------------------------- draws

  predicate IsCar(k: Kind) { k == Car }

  predicate IsTruck(k: Kind) { k == Truck }

  function OfKind(k: Kind): Kind -> bool {
    if k == Car then IsCar else IsTruck
  }

  // How many of the owners draw this kind.
  function Draws(draws: seq<Kind>, k: Kind): nat {
    Count(OfKind(k), draws)
  }

  predicate AllGone(s: State) {
    forall i: nat :: i < |s.owners| ==> s.owners[i].Gone?
  }

  // In this step an owner draws its kind.
  predicate Choosing(s: State, l: Label) {
    l.Owner? && l.i < |s.owners| && s.owners[l.i].Choose?
  }

  // Owner i draws draws[i].
  predicate DrawsAs(s: State, l: Label, draws: seq<Kind>) {
    Choosing(s, l) ==> l.i < |draws| && l.draw == draws[l.i]
  }

  predicate DrawnBy(run: seq<State>, ls: seq<Label>, draws: seq<Kind>)
    requires |run| == |ls| + 1
  {
    forall j :: 0 <= j < |ls| ==> DrawsAs(run[j], ls[j], draws)
  }

  // An owner with a vehicle has the kind it drew, and one is turned away only when the
  // temporary area is full.
  predicate OwnerDrew(c: Config, s: State, pc: OwnerPc, draw: Kind) {
    && (!pc.Unborn? && !pc.Choose? ==> pc.kind == draw)
    && ((pc.ShmPost? || pc.EntrancePost? || pc.Gone?) && !pc.taken ==> On(s, pc.kind).accepted >= Temp(c, pc.kind))
  }

  predicate DrawInv(c: Config, s: State, draws: seq<Kind>) {
    |s.owners| == |draws| && forall i: nat :: i < |draws| ==> OwnerDrew(c, s, s.owners[i], draws[i])
  }

  lemma DrawFrame(c: Config, s: State, s': State, pc: OwnerPc, draw: Kind)
    requires OwnerDrew(c, s, pc, draw)
    requires s'.car.accepted >= s.car.accepted && s'.truck.accepted >= s.truck.accepted
    ensures OwnerDrew(c, s', pc, draw)
  {
  }

  lemma DrawOwner(c: Config, s: State, i: nat, draw: Kind, mine: Kind)
    requires Inv(c, s) && OwnerCan(s, i) && OwnerDrew(c, s, s.owners[i], mine) && (s.owners[i].Choose? ==> draw == mine)
    ensures var s' := OwnerDo(c, s, i, draw);
      && s'.owners == s.owners[i := s'.owners[i]] && OwnerDrew(c, s', s'.owners[i], mine)
      && s'.car.accepted >= s.car.accepted && s'.truck.accepted >= s.truck.accepted
  {
    assert OwnerSees(s, s.owners[i]);
    hide Count, LocksInv;
  }

  lemma DrawOwnerStep(c: Config, s: State, i: nat, draw: Kind, draws: seq<Kind>)
    requires Inv(c, s) && DrawInv(c, s, draws) && OwnerCan(s, i) && (s.owners[i].Choose? ==> draw == draws[i])
    ensures DrawInv(c, OwnerDo(c, s, i, draw), draws)
  {
    var s' := OwnerDo(c, s, i, draw);
    assert OwnerDrew(c, s, s.owners[i], draws[i]);
    hide Inv, OwnerDo, OwnerDrew;
    DrawOwner(c, s, i, draw, draws[i]);
    forall j: nat | j < |draws| ensures OwnerDrew(c, s', s'.owners[j], draws[j]) {
      assert OwnerDrew(c, s, s.owners[j], draws[j]);
      if j != i { DrawFrame(c, s, s', s.owners[j], draws[j]); }
    }
  }

  lemma DrawAttendantStep(c: Config, s: State, k: Kind, draws: seq<Kind>)
    requires DrawInv(c, s, draws) && AttendantCan(s, k)
    ensures DrawInv(c, AttendantDo(s, k), draws)
  {
    var s' := AttendantDo(s, k);
    assert s'.owners == s.owners && s'.car.accepted == s.car.accepted && s'.truck.accepted == s.truck.accepted;
    hide AttendantDo, OwnerDrew;
    forall j: nat | j < |draws| ensures OwnerDrew(c, s', s'.owners[j], draws[j]) {
      assert OwnerDrew(c, s, s.owners[j], draws[j]);
      DrawFrame(c, s, s', s.owners[j], draws[j]);
    }
  }

  lemma DrawMainStep(c: Config, s: State, draws: seq<Kind>)
    requires DrawInv(c, s, draws) && MainCan(c, s)
    ensures DrawInv(c, MainDo(c, s), draws)
  {
    var s' := MainDo(c, s);
    forall j: nat | j < |draws| ensures OwnerDrew(c, s', s'.owners[j], draws[j]) {
      assert OwnerDrew(c, s, s.owners[j], draws[j]);
    }
  }

  lemma DrawStep(c: Config, s: State, l: Label, s': State, draws: seq<Kind>)
    requires Inv(c, s) && DrawInv(c, s, draws) && Next(c, s, l, s') && DrawsAs(s, l, draws)
    ensures DrawInv(c, s', draws)
  {
    hide Inv, OwnerDo, AttendantDo, MainDo;
    match l
    case Owner(i, draw) => DrawOwnerStep(c, s, i, draw, draws);
    case Attendant(k) => DrawAttendantStep(c, s, k, draws);
    case Main => DrawMainStep(c, s, draws);
  }

  lemma {:induction false} Drawn(c: Config, run: seq<State>, ls: seq<Label>, draws: seq<Kind>, n: nat)
    requires IsRun(c, run, ls) && n <= |ls| && DrawnBy(run, ls, draws) && |draws| == c.owners
    ensures DrawInv(c, run[n], draws)
  {
    if n == 0 {
      assert Init(c, run[0]);
    } else {
      Drawn(c, run, ls, draws, n - 1);
      RunSafe(c, run, ls, n - 1);
      assert Next(c, run[n - 1], ls[n - 1], run[n - 1 + 1]);
      assert DrawsAs(run[n - 1], ls[n - 1], draws);
      hide IsRun, Inv, Next, DrawInv, DrawsAs;
      DrawStep(c, run[n - 1], ls[n - 1], run[n], draws);
    }
  }

  // Never more accepted than drawn; and in the end all that were drawn, or at least as
  // many as the temporary area holds.
  lemma AcceptedBounds(c: Config, run: seq<State>, ls: seq<Label>, draws: seq<Kind>, k: Kind)
    requires IsRun(c, run, ls) && DrawnBy(run, ls, draws) && |draws| == c.owners
    ensures var s := run[|ls|];
      && On(s, k).accepted <= Draws(draws, k)
      && (AllGone(s) ==>
            On(s, k).accepted == Draws(draws, k) || On(s, k).accepted >= Temp(c, k))
  {
    var s := run[|ls|];
    Drawn(c, run, ls, draws, |ls|);
    Tokens(c, run, ls, k);
    hide IsRun, Count;
    forall i | 0 <= i < |draws| && Taken(k)(s.owners[i]) ensures OfKind(k)(draws[i]) {
      assert OwnerDrew(c, s, s.owners[i], draws[i]);
    }
    CountInto(Taken(k), s.owners, OfKind(k), draws);
    if AllGone(s) && On(s, k).accepted < Temp(c, k) {
      forall i | 0 <= i < |draws| && OfKind(k)(draws[i]) ensures Taken(k)(s.owners[i]) {
        assert OwnerDrew(c, s, s.owners[i], draws[i]);
      }
      CountInto(OfKind(k), draws, Taken(k), s.owners);
    }
  }

  // ---------------------------------------------------------------- every run has its draws

  predicate HasKind(pc: OwnerPc) {
    !pc.Unborn? && !pc.Choose?
  }

  lemma OwnersKnown(c: Config, run: seq<State>, ls: seq<Label>, n: nat)
    requires IsRun(c, run, ls) && n + 1 < |run|
    ensures n < |ls| && OwnersInv(c, run[n]) && Next(c, run[n], ls[n], run[n + 1])
  {
    RunSafe(c, run, ls, n);
    hide OwnersInv, LocksInv, LaneInv, Next;
  }

  lemma {:induction false} KindKept(c: Config, run: seq<State>, ls: seq<Label>, m: nat, n: nat, i: nat)
    requires IsRun(c, run, ls) && m <= n < |run| && i < |run[m].owners| && HasKind(run[m].owners[i])
    ensures i < |run[n].owners| && HasKind(run[n].owners[i]) && run[n].owners[i].kind == run[m].owners[i].kind
  {
    hide *;
    if m == n {
    } else {
      KindKept(c, run, ls, m, n - 1, i);
      OwnersKnown(c, run, ls, n - 1);
      KindStep(c, run[n - 1], ls[n - 1], run[n], i);
    }
  }

  lemma KindStep(c: Config, s: State, l: Label, s': State, i: nat)
    requires OwnersInv(c, s) && Next(c, s, l, s') && i < |s.owners| && HasKind(s.owners[i])
    ensures i < |s'.owners| && HasKind(s'.owners[i]) && s'.owners[i].kind == s.owners[i].kind
  {
  }

  lemma RunHasDraws(c: Config, run: seq<State>, ls: seq<Label>) returns (draws: seq<Kind>)
    requires IsRun(c, run, ls)
    ensures |draws| == c.owners && DrawnBy(run, ls, draws)
  {
    var s := run[|ls|];
    RunSafe(c, run, ls, |ls|);
    draws := seq(c.owners, i requires 0 <= i < c.owners => if HasKind(s.owners[i]) then s.owners[i].kind else Car);
    forall j | 0 <= j < |ls| ensures DrawsAs(run[j], ls[j], draws) {
      assert Next(c, run[j], ls[j], run[j + 1]);
      if Choosing(run[j], ls[j]) {
        RunSafe(c, run, ls, j);
        hide IsRun;
        KindKept(c, run, ls, j + 1, |ls|, ls[j].i);
      }
    }
  }

  // ---------------------------------------------------------------- when it ends

  // More of each kind are drawn than its lot holds.
  predicate EnoughDrawn(c: Config, draws: seq<Kind>) {
    Draws(draws, Car) > c.lotCar && Draws(draws, Truck) > c.lotTruck
  }

  // Read off the draws: the program ends only if more of each kind come than its lot
  // holds; and at a standstill it has ended if besides the temporary areas are larger
  // than the lots.
  lemma EndsByDraws(c: Config, run: seq<State>, ls: seq<Label>, draws: seq<Kind>)
    requires IsRun(c, run, ls) && DrawnBy(run, ls, draws) && |draws| == c.owners
    ensures run[|ls|].main.Done? ==> EnoughDrawn(c, draws)
    ensures Stuck(c, run[|ls|]) && c.tempCar > c.lotCar && c.tempTruck > c.lotTruck ==>
      (run[|ls|].main.Done? <==> EnoughDrawn(c, draws))
  {
    JoinedBoth(c, run, ls, |ls|);
    TestNeverFails(c, run, ls, Car);
    TestNeverFails(c, run, ls, Truck);
    AcceptedBounds(c, run, ls, draws, Car);
    AcceptedBounds(c, run, ls, draws, Truck);
    if Stuck(c, run[|ls|]) { Standstill(c, run, ls); }
    hide IsRun, Stuck, Count;
  }

  // ---------------------------------------------------------------- runs go on to a standstill

  lemma Longer(c: Config, run: seq<State>, ls: seq<Label>, draws: seq<Kind>, l: Label, s': State)
    requires IsRun(c, run, ls) && DrawnBy(run, ls, draws) && Next(c, run[|ls|], l, s') && DrawsAs(run[|ls|], l, draws)
    ensures IsRun(c, run + [s'], ls + [l]) && DrawnBy(run + [s'], ls + [l], draws)
  {
    hide Init, Next, DrawsAs;
    var run', ls' := run + [s'], ls + [l];
    forall k | 0 <= k < |ls'|
      ensures Next(c, run'[k], ls'[k], run'[k + 1]) && DrawsAs(run'[k], ls'[k], draws)
    {
      if k < |ls| { assert Next(c, run[k], ls[k], run[k + 1]) && DrawsAs(run[k], ls[k], draws); }
    }
  }

  // The same step, with the draw this owner is to make.
  function Drawing(l: Label, draws: seq<Kind>): Label {
    if l.Owner? && l.i < |draws| then Owner(l.i, draws[l.i]) else l
  }

  lemma OneMore(c: Config, run: seq<State>, ls: seq<Label>, draws: seq<Kind>, step: Label) returns (l: Label, s': State)
    requires IsRun(c, run, ls) && |draws| == c.owners && Can(c, run[|ls|], step)
    ensures l == Drawing(step, draws) && Next(c, run[|ls|], l, s') && DrawsAs(run[|ls|], l, draws)
    ensures Measure(s') < Measure(run[|ls|])
  {
    var s := run[|ls|];
    RunSafe(c, run, ls, |ls|);
    RunBounded(c, run, ls, |ls|);
    hide IsRun, Measure, MainBounds;
    l := Drawing(step, draws);
    s' := Do(c, s, l);
    StepDecreases(c, s, l, s');
  }

  // Whatever the owners draw, every run goes on to a standstill.
  lemma {:induction false} ComesToRest(c: Config, run: seq<State>, ls: seq<Label>, draws: seq<Kind>)
    returns (run': seq<State>, ls': seq<Label>)
    requires IsRun(c, run, ls) && DrawnBy(run, ls, draws) && |draws| == c.owners
    ensures IsRun(c, run', ls') && DrawnBy(run', ls', draws) && run <= run' && ls <= ls'
    ensures Stuck(c, run'[|ls'|])
    decreases Measure(run[|ls|])
  {
    if Stuck(c, run[|ls|]) {
      run', ls' := run, ls;
    } else {
      var step :| Can(c, run[|ls|], step);
      var l, s' := OneMore(c, run, ls, draws, step);
      hide Measure, Next, Can, Stuck, DrawsAs;
      Longer(c, run, ls, draws, l, s');
      run', ls' := ComesToRest(c, run + [s'], ls + [l], draws);
    }
  }

  // ---------------------------------------------------------------- a schedule that fills the temporary areas first

  predicate NothingParked(s: State) {
    s.car.att.NewWait? && s.truck.att.NewWait? && s.car.parked == 0 && s.truck.parked == 0
  }

  lemma NotAnAttendant(c: Config, s: State, l: Label, s': State)
    requires Next(c, s, l, s') && !l.Attendant? && NothingParked(s)
    ensures NothingParked(s')
  {
  }

  // All owners may come and leave before an attendant does anything.
  lemma {:induction false} OwnersFirst(c: Config, run: seq<State>, ls: seq<Label>, draws: seq<Kind>)
    returns (run': seq<State>, ls': seq<Label>)
    requires IsRun(c, run, ls) && DrawnBy(run, ls, draws) && |draws| == c.owners && NothingParked(run[|ls|])
    ensures IsRun(c, run', ls') && DrawnBy(run', ls', draws) && NothingParked(run'[|ls'|])
    ensures AllGone(run'[|ls'|])
    decreases Measure(run[|ls|])
  {
    var s := run[|ls|];
    if AllGone(s) {
      run', ls' := run, ls;
    } else {
      var step := SomeOwnerMoves(c, run, ls);
      var l, s' := OneMore(c, run, ls, draws, step);
      NotAnAttendant(c, s, l, s');
      hide Measure, Next, Can, DrawsAs, NothingParked;
      Longer(c, run, ls, draws, l, s');
      run', ls' := OwnersFirst(c, run + [s'], ls + [l], draws);
    }
  }

  lemma SomeOwnerMoves(c: Config, run: seq<State>, ls: seq<Label>) returns (step: Label)
    requires IsRun(c, run, ls) && NothingParked(run[|ls|])
    requires !AllGone(run[|ls|])
    ensures !step.Attendant? && Can(c, run[|ls|], step)
  {
    var s := run[|ls|];
    RunSafe(c, run, ls, |ls|);
    hide IsRun, Inv, Can;
    if OwnersStuck(c, s) {
      OwnersGone(c, s);
      assert false;
    }
    step :| !step.Attendant? && Can(c, s, step);
  }

  // From then on no vehicle is accepted any more.
  lemma {:induction false} AcceptedFixed(c: Config, run: seq<State>, ls: seq<Label>, m: nat, n: nat)
    requires IsRun(c, run, ls) && m <= n < |run| && AllGone(run[m])
    ensures AllGone(run[n])
    ensures run[n].car.accepted == run[m].car.accepted && run[n].truck.accepted == run[m].truck.accepted
  {
    hide *;
    if m == n {
    } else {
      AcceptedFixed(c, run, ls, m, n - 1);
      OwnersKnown(c, run, ls, n - 1);
      AcceptedStep(c, run[n - 1], ls[n - 1], run[n]);
    }
  }

  lemma AllCreated(c: Config, s: State)
    requires OwnersInv(c, s) && s.main.Create? && s.main.i < |s.owners|
    ensures !AllGone(s)
  {
    assert s.owners[s.main.i] == Unborn;
  }

  lemma AcceptedStep(c: Config, s: State, l: Label, s': State)
    requires OwnersInv(c, s) && Next(c, s, l, s') && AllGone(s)
    ensures AllGone(s') && s'.car.accepted == s.car.accepted && s'.truck.accepted == s.truck.accepted
  {
    if s.main.Create? && s.main.i < |s.owners| {
      AllCreated(c, s);
    }
    match l
    case Owner(_, _) => assert false;
    case _ => assert s'.owners == s.owners;
  }

  // A start without any step.
  lemma Start(c: Config) returns (run: seq<State>)
    ensures IsRun(c, run, []) && NothingParked(run[0]) && forall draws: seq<Kind> :: DrawnBy(run, [], draws)
  {
    run := [State(1, 1, EmptyLane(c, Car), EmptyLane(c, Truck), seq(c.owners, i => Unborn), Create(0))];
  }

  // If a temporary area is no larger than its lot, then whatever the owners draw there is
  // a run that comes to a standstill and has not ended.
  lemma MayNotEnd(c: Config, draws: seq<Kind>, k: Kind) returns (run: seq<State>, ls: seq<Label>)
    requires |draws| == c.owners && Temp(c, k) <= Lot(c, k)
    ensures IsRun(c, run, ls) && DrawnBy(run, ls, draws) && Stuck(c, run[|ls|]) && !run[|ls|].main.Done?
  {
    var start := Start(c);
    var run0, ls0 := OwnersFirst(c, start, [], draws);
    Tokens(c, run0, ls0, k);
    assert On(run0[|ls0|], k).accepted <= Temp(c, k);
    run, ls := ComesToRest(c, run0, ls0, draws);
    assert run[|ls0|] == run0[|ls0|];
    AcceptedFixed(c, run, ls, |ls0|, |ls|);
    Standstill(c, run, ls);
    hide IsRun, Stuck, DrawnBy, LaneAtRest;
  }

  // ---------------------------------------------------------------- exactly when

  ghost predicate AlwaysEnds(c: Config, draws: seq<Kind>) {
    forall run: seq<State>, ls: seq<Label> ::
      IsRun(c, run, ls) && DrawnBy(run, ls, draws) && Stuck(c, run[|ls|]) ==> run[|ls|].main.Done?
  }

  // Every schedule of these draws ends if and only if more of each kind are drawn than
  // its lot holds, and each temporary area is larger than its lot.
  lemma AlwaysEndsIff(c: Config, draws: seq<Kind>)
    requires |draws| == c.owners
    ensures AlwaysEnds(c, draws) <==> EnoughDrawn(c, draws) && c.tempCar > c.lotCar && c.tempTruck > c.lotTruck
  {
    if EnoughDrawn(c, draws) && c.tempCar > c.lotCar && c.tempTruck > c.lotTruck {
      forall run: seq<State>, ls: seq<Label> | IsRun(c, run, ls) && DrawnBy(run, ls, draws) && Stuck(c, run[|ls|])
        ensures run[|ls|].main.Done?
      {
        EndsByDraws(c, run, ls, draws);
      }
    } else if c.tempCar <= c.lotCar {
      var run, ls := MayNotEnd(c, draws, Car);
    } else if c.tempTruck <= c.lotTruck {
      var run, ls := MayNotEnd(c, draws, Truck);
    } else {
      var start := Start(c);
      var run, ls := ComesToRest(c, start, [], draws);
      EndsByDraws(c, run, ls, draws);
    }
  }

  // With the program's own numbers, whatever its hundred owners draw.
  lemma ProgramMayNotEnd(draws: seq<Kind>) returns (run: seq<State>, ls: seq<Label>)
    requires |draws| == 100
    ensures var c := Config(100, 8, 4, 8, 4);
      IsRun(c, run, ls) && DrawnBy(run, ls, draws) && Stuck(c, run[|ls|]) && !run[|ls|].main.Done?
  {
    run, ls := MayNotEnd(Config(100, 8, 4, 8, 4), draws, Car);
  }
}
