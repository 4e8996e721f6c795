// The shutdown stall can happen whatever is copied and however many workers there are: a
// run without spurious wake-ups that ends with a worker asleep for good.
module CopierStall {
  import opened SourceTree
  import opened Walk
  import opened Copier
  import opened CopierFrames
  import opened CopierLocks
  import opened CopierBarrier
  import opened CopierStats
  import opened CopierWake
  import opened CopierRuns
  import opened CopierStuck
  import opened CopierTermination

  // ---------------------------------------------------------------- the schedule

  // Worker 0 does all the copying. It enters the loop only for a task that is there, or
  // once the walk is over, and is halted at pthread_cond_wait; the manager is halted before
  // clearing `active`, and the other workers at the loop.
  predicate Lets(s: State, l: Label) {
    match l
    case Mgr(_) => s.mgr != ClearActive
    case Wrk(i, _) =>
      i < |s.ws| && !s.ws[i].CondWait?
      && (s.ws[i].LoopActive? ==> i == 0 && (s.count > 0 || s.mgr == ClearActive))
    case _ => false
  }

  // Worker 0 under this schedule, and the others.
  predicate Leads(s: State, pc: WPc) {
    && !pc.Asleep? && !pc.Relock?
    && (pc.Lock? || pc.TestCount? ==> s.count > 0 || s.mgr == ClearActive)
    && (pc.TestActive? || pc.CondWait? ==> s.mgr == ClearActive)
  }

  predicate Waits(pc: WPc) {
    pc.Begin? || pc.Started? || pc.LoopActive?
  }

  predicate Scheduled(s: State) {
    && !ManagerOver(s.mgr) && s.ws != [] && Leads(s, s.ws[0])
    && forall i: nat :: 0 < i < |s.ws| ==> Waits(s.ws[i])
  }

  lemma LeaderLoops(c: Config, s: State)
    requires LockInv(c, s) && Scheduled(s) && Lets(s, Wrk(0, 0)) && InLoop(s.ws[0])
    ensures Scheduled(LoopDo(c, s, 0))
  {
    assert WrkLock(s, 0);
    LoopEffect(c, s, 0);
    hide LockInv;
  }

  lemma LeaderTakes(c: Config, s: State)
    requires LockInv(c, s) && Scheduled(s) && Lets(s, Wrk(0, 0)) && InRing(s.ws[0])
    ensures Scheduled(RingDo(c, s, 0))
  {
    assert WrkLock(s, 0) && s.count >= 0;
    RingEffect(c, s, 0);
    hide LockInv;
  }

  lemma LeaderElsewhere(s: State, s': State)
    requires Scheduled(s) && Moves(s, s', 0) && SameRing(s, s')
    requires InCopy(s'.ws[0]) || InStats(s'.ws[0]) || s'.ws[0].LoopActive?
    ensures Scheduled(s')
  {
  }

  lemma LeaderStep(c: Config, s: State, pick: nat)
    requires LockInv(c, s) && Scheduled(s) && Lets(s, Wrk(0, pick)) && WrkCan(c, s, 0, pick)
    ensures Scheduled(WrkDo(c, s, 0, pick))
  {
    assert Shape(c, s) && Lets(s, Wrk(0, 0));
    hide LockInv, Scheduled, Lets, LoopDo, RingDo, CopyDo, StatsDo;
    if InLoop(s.ws[0]) {
      LeaderLoops(c, s);
    } else if InRing(s.ws[0]) {
      LeaderTakes(c, s);
    } else if InCopy(s.ws[0]) {
      CopyEffect(c, s, 0, pick);
      LeaderElsewhere(s, CopyDo(c, s, 0, pick));
    } else {
      StatsEffect(c, s, 0);
      LeaderElsewhere(s, StatsDo(c, s, 0));
    }
  }

  lemma OtherStep(c: Config, s: State, i: nat, pick: nat)
    requires Shape(c, s) && Scheduled(s) && i > 0 && Lets(s, Wrk(i, pick)) && WrkCan(c, s, i, pick)
    ensures Scheduled(WrkDo(c, s, i, pick))
  {
    assert Waits(s.ws[i]);
  }

  lemma ManagerStep(c: Config, s: State, pick: nat)
    requires Shape(c, s) && Scheduled(s) && Lets(s, Mgr(pick)) && MgrCan(c, s, pick)
    ensures Scheduled(MgrDo(c, s, pick))
  {
    hide Advance;
    assert !SomeoneAsleep(s);
    assert MgrDo(c, s, pick).ws == s.ws;
  }

  lemma ScheduledStep(c: Config, s: State, l: Label, s': State)
    requires LockInv(c, s) && Scheduled(s) && Lets(s, l) && Next(c, s, l, s')
    ensures Scheduled(s')
  {
    hide LockInv, Scheduled, MgrDo, WrkDo;
    match l
    case Mgr(pick) => ManagerStep(c, s, pick);
    case Wrk(i, pick) => if i == 0 { LeaderStep(c, s, pick); } else { OtherStep(c, s, i, pick); }
  }

  // ---------------------------------------------------------------- where it halts

  // No step that the schedule lets through is enabled.
  ghost predicate Halted(c: Config, s: State) {
    Shape(c, s) && forall l: Label :: Lets(s, l) ==> !Can(c, s, l)
  }

  lemma BarrierPassed(c: Config, s: State, i: nat)
    requires BarrierInv(c, s) && Halted(c, s) && i < |s.ws|
    ensures !s.ws[i].Begin? && !s.ws[i].Started?
  {
    forall j: nat | j < |s.ws| ensures !s.ws[j].Begin? {
      assert s.ws[j].Begin? ==> Lets(s, Wrk(j, 0)) && WrkCan(c, s, j, 0);
    }
    FirstBarrierOpens(c, s);
    assert PhaseOK(s.barrier.phase, s.ws[i]);
    assert s.ws[i].Started? ==> Lets(s, Wrk(i, 0)) && WrkCan(c, s, i, 0);
  }

  // Worker 0 holds the lock at pthread_cond_wait, or nobody holds it and worker 0 waits
  // for a task.
  lemma LeaderHalts(c: Config, s: State)
    requires LockInv(c, s) && StatInv(c, s) && BarrierInv(c, s) && Scheduled(s) && Halted(c, s)
    ensures s.ws[0] == CondWait
      || (s.ws[0] == LoopActive && s.lock == None && s.count == 0 && s.mgr != ClearActive)
  {
    BarrierPassed(c, s, 0);
    assert WrkLock(s, 0) && s.count >= 0 && s.active;
    if s.ws[0] != CondWait {
      LocksHalt(c, s);
      hide LockInv, StatInv, BarrierInv;
      if s.ws[0] != LoopActive || s.count > 0 || s.mgr == ClearActive {
        forall pick: nat ensures !WrkCan(c, s, 0, pick) {
          assert Lets(s, Wrk(0, pick)) ==> !Can(c, s, Wrk(0, pick));
        }
        CannotMove(c, s, 0);
      }
    }
  }

  lemma LocksHalt(c: Config, s: State)
    requires LockInv(c, s) && StatInv(c, s) && Scheduled(s) && Halted(c, s) && s.ws[0] != CondWait
    ensures s.lock == None && s.statLock == None
  {
    assert !SomeoneAsleep(s) && !MHolds(s.mgr) by {
      assert Lets(s, Mgr(0)) ==> !Can(c, s, Mgr(0));
    }
    assert !WHolds(s.ws[0]) && !InSection(s.ws[0]) by {
      assert Lets(s, Wrk(0, 0)) ==> !Can(c, s, Wrk(0, 0));
    }
    forall i: nat | 0 < i < |s.ws| ensures !WHolds(s.ws[i]) && !InSection(s.ws[i]) {
      assert Waits(s.ws[i]);
    }
    Holders(c, s);
    hide Halted, Scheduled, StatInv, WHolds, InSection;
  }

  lemma Holders(c: Config, s: State)
    requires LockInv(c, s) && StatInv(c, s)
    ensures s.lock == None || s.lock == Some(Manager)
      || (s.lock.value.Worker? && s.lock.value.id < |s.ws| && WHolds(s.ws[s.lock.value.id]))
    ensures s.statLock.Some? ==> s.statLock.value < |s.ws| && InSection(s.ws[s.statLock.value])
  {
    if s.lock.Some? && s.lock.value.Worker? {
      assert WrkLock(s, s.lock.value.id);
    }
    if s.statLock.Some? {
      assert InSection(s.ws[s.statLock.value]);
    }
  }

  // Worker 0 is where a broadcast does not reach it.
  predicate Overlooked(s: State) {
    s.ws != [] && s.ws[0] == CondWait
  }

  // The manager waits at line 191, and worker 0 at line 210.
  lemma HaltsBeforeTheEnd(c: Config, s: State, files0: map<string, seq<byte>>)
    requires Inv(c, s, files0) && Scheduled(s) && Halted(c, s)
    ensures s.mgr == ClearActive && Overlooked(s)
  {
    assert LockInv(c, s) && StatInv(c, s) && BarrierInv(c, s) && WakeInv(c, s);
    assert Lets(s, Mgr(0)) ==> !Can(c, s, Mgr(0));
    hide Inv, LockInv, StatInv, BarrierInv, Halted;
    assert !SomeoneAsleep(s);
    LeaderHalts(c, s);
    if s.ws[0] != CondWait {
      assert false;
    }
  }

  // ---------------------------------------------------------------- the run

  // A start without any step.
  lemma AtTheStart(c: Config, disk: Disk) returns (s: State)
    requires GoodConfig(c)
    ensures IsRun(c, [s], []) && Scheduled(s) && s.disk == disk
  {
    s := State(seq(c.cap, _ => Task("", "")), 0, 0, 0, None, true, Barrier(0, 0), None, Stats(0, 0, 0, 0, 0), disk,
               Walking, Start(c.srcRoot, c.dstRoot, c.tree), seq(c.workers, _ => Begin),
               History([], 0, [], [], [], {}));
  }

  lemma {:induction false} FollowSchedule(c: Config, run: seq<State>, ls: seq<Label>)
    returns (run': seq<State>, ls': seq<Label>)
    requires IsRun(c, run, ls) && Scheduled(run[|ls|])
    ensures IsRun(c, run', ls') && run <= run' && ls <= ls' && forall j :: |ls| <= j < |ls'| ==> !Spurious(ls'[j])
    ensures run'[|ls'|].mgr == ClearActive && Overlooked(run'[|ls'|])
    decreases Measure(c, run[|ls|])
  {
    hide Measure, Inv, Scheduled, Next, Halted, Spurious;
    RunSafe(c, run, ls, |ls|);
    if Halted(c, run[|ls|]) {
      run', ls' := run, ls;
      HaltsBeforeTheEnd(c, run[|ls|], run[0].disk.files);
    } else {
      var l, s' := NextOnSchedule(c, run[|ls|], run[0].disk.files);
      Longer(c, run, ls, l, s');
      run', ls' := FollowSchedule(c, run + [s'], ls + [l]);
    }
  }

  lemma NextOnSchedule(c: Config, s: State, files0: map<string, seq<byte>>) returns (l: Label, s': State)
    requires Inv(c, s, files0) && Scheduled(s) && !Halted(c, s)
    ensures Next(c, s, l, s') && !Spurious(l) && Scheduled(s') && Measure(c, s') < Measure(c, s)
  {
    assert LockInv(c, s) && Shape(c, s);
    hide Measure, Inv, LockInv, Scheduled, Do, Can;
    l :| Lets(s, l) && Can(c, s, l);
    s' := Do(c, s, l);
    assert Next(c, s, l, s');
    hide Next;
    ScheduledStep(c, s, l, s');
    StepDecreases(c, s, l, s', files0);
  }

  // Clearing `active`, and the broadcast, which misses worker 0.
  lemma ManagerGoesOn(c: Config, run: seq<State>, ls: seq<Label>) returns (run': seq<State>, ls': seq<Label>)
    requires IsRun(c, run, ls) && Overlooked(run[|ls|])
    requires run[|ls|].mgr == ClearActive || run[|ls|].mgr == Broadcast
    ensures IsRun(c, run', ls') && run <= run' && ls' == ls + [Mgr(0)] && Overlooked(run'[|ls'|])
    ensures run'[|ls'|].mgr == if run[|ls|].mgr == ClearActive then Broadcast else Finished
  {
    var s := run[|ls|];
    RunSafe(c, run, ls, |ls|);
    assert Shape(c, s);
    hide Inv, IsRun, WalkDo;
    Longer(c, run, ls, Mgr(0), MgrDo(c, s, 0));
    run', ls' := run + [MgrDo(c, s, 0)], ls + [Mgr(0)];
  }

  lemma {:induction false} StaysStranded(c: Config, run: seq<State>, ls: seq<Label>, m: nat, n: nat)
    requires IsRun(c, run, ls) && m <= n < |run| == |ls| + 1 && run[m].mgr.Finished?
    requires |run[m].ws| > 0 && Stranded(run[m].ws[0]) && forall j :: m <= j < |ls| ==> !ls[j].SpuriousWrk?
    ensures run[n].mgr.Finished? && |run[n].ws| > 0 && Stranded(run[n].ws[0])
  {
    hide *;
    if m == n {
    } else {
      StaysStranded(c, run, ls, m, n - 1);
      StepAt(c, run, ls, n - 1);
      StrandStep(c, run[n - 1], ls[n - 1], run[n], 0);
    }
  }

  // Worker 0 never returns.
  lemma StaysOverlooked(c: Config, run: seq<State>, ls: seq<Label>, run': seq<State>, ls': seq<Label>)
    requires IsRun(c, run, ls) && run[|ls|].mgr == Finished && Overlooked(run[|ls|])
    requires IsRun(c, run', ls') && run <= run' && ls <= ls' && forall j :: |ls| <= j < |ls'| ==> !Spurious(ls'[j])
    ensures !Final(run'[|ls'|])
  {
    assert run'[|ls|] == run[|ls|];
    assert forall j :: |ls| <= j < |ls'| ==> !ls'[j].SpuriousWrk?;
    hide Next, Init;
    StaysStranded(c, run', ls', |ls|, |ls'|);
  }

  // Whatever is to be copied, with any number of workers and slots: without any spurious
  // wake-up the copier can end with the copy complete and a worker asleep, so that main
  // waits for it for ever.
  lemma ShutdownCanStrandAWorker(c: Config, disk: Disk) returns (run: seq<State>, ls: seq<Label>)
    requires GoodConfig(c)
    ensures IsRun(c, run, ls) && run[0].disk == disk && forall j :: 0 <= j < |ls| ==> !Spurious(ls[j])
    ensures Shape(c, run[|ls|]) && Stuck(c, run[|ls|]) && Stalled(c, run[|ls|]) && !Final(run[|ls|])
  {
    hide IsRun, Stuck, Stalled, Shape, Rescued, Final, Overlooked;
    var s0 := AtTheStart(c, disk);
    var run1, ls1 := FollowSchedule(c, [s0], []);
    var run2, ls2 := ManagerGoesOn(c, run1, ls1);
    var run3, ls3 := ManagerGoesOn(c, run2, ls2);
    run, ls := ComesToRest(c, run3, ls3);
    assert run[0] == s0;
    StaysOverlooked(c, run3, ls3, run, ls);
  }
}
