// The copier comes to rest: apart from spurious wake-ups every step uses up a measure,
// whatever the interleaving.
module CopierTermination {
  import opened SourceTree
  import opened Walk
  import opened Copier
  import opened CopierFrames
  import opened CopierLocks
  import opened CopierRing
  import opened CopierScript
  import opened CopierFiles
  import opened CopierRuns
  import opened CopierStuck

  const WAKE_WORKER: nat := 5
  const WAKE_MANAGER: nat := 3

  // Steps a task costs once a worker has it, per byte of its file.
  ghost function Cost(c: Config, t: Task): nat {
    31 + WAKE_MANAGER + 2 * |Content(c, t.src)|
  }

  ghost function CostOf(c: Config, ts: seq<Task>): nat {
    if ts == [] then 0 else Cost(c, ts[0]) + CostOf(c, ts[1..])
  }

  function MgrRank(c: Config, pc: MPc): nat {
    match pc
    case Finished => 0
    case Broadcast => 1 + WAKE_WORKER * c.workers
    case ClearActive => 2 + WAKE_WORKER * c.workers
    case Walking => 3 + WAKE_WORKER * c.workers
    case PutUnlock => 4 + WAKE_WORKER * c.workers
    case PutSignal => 10 + WAKE_WORKER * c.workers
    case PutCount => 11 + WAKE_WORKER * c.workers
    case PutAdvance(_) => 12 + WAKE_WORKER * c.workers
    case PutStore(_) => 13 + WAKE_WORKER * c.workers
    case PutAsleep(_) => 14 + WAKE_WORKER * c.workers
    case PutWait(_) => 15 + WAKE_WORKER * c.workers
    case PutTest(_) => 16 + WAKE_WORKER * c.workers
    case PutRelock(_) => 17 + WAKE_WORKER * c.workers
    case PutLock(_) => 17 + WAKE_WORKER * c.workers
  }

  ghost function WrkRank(c: Config, pc: WPc, quiet: bool): nat {
    match pc
    case Returned => 0
    case Ended(_) => 1
    case End => 2
    case LoopCount => if quiet then 3 else 19
    case LoopActive => if quiet then 4 else 20
    case UnlockEmpty => 5
    case UnlockTwice => 6
    case Asleep => 7
    case AdvanceOut(_) => 7
    case CondWait => 8
    case ReadSlot => 8
    case IfCount => 9
    case TestActive => 10
    case TestCount => 11
    case Relock => 12
    case Lock => 12
    case Started(_) => 21
    case Begin => 22
    case StatUnlock => 21
    case StatTotal(_) => 22
    case StatKind(_) => 23
    case StatBytes(_) => 24
    case StatLock(_) => 25
    case ReadChunk(job, off) => 26 + Left(c, job, off)
    case WriteChunk(job, off, _) => 25 + Left(c, job, off)
    case OpenTarget(job) => 27 + Left(c, job, 0)
    case OpenSource(job) => 28 + Left(c, job, 0)
    case UnlockTaken(job) => 29 + Left(c, job, 0)
    case SignalFull(job) => 30 + WAKE_MANAGER + Left(c, job, 0)
    case DecCount(job) => 31 + WAKE_MANAGER + Left(c, job, 0)
  }

  ghost function Left(c: Config, job: Job, off: nat): nat {
    var n := |Content(c, job.task.src)|;
    if off <= n then 2 * (n - off) else 0
  }

  ghost function RankSum(c: Config, ws: seq<WPc>, quiet: bool): nat {
    if ws == [] then 0 else WrkRank(c, ws[0], quiet) + RankSum(c, ws[1..], quiet)
  }

  // Tasks nobody has taken, tree nodes nobody has visited, and where every thread is.
  ghost function Measure(c: Config, s: State): nat {
    CostOf(c, if s.hist.taken <= |AllTasks(c)| then AllTasks(c)[s.hist.taken..] else [])
    + 20 * WalkMeasure(s.walk) + MgrRank(c, s.mgr) + RankSum(c, s.ws, Quiet(s))
  }

  lemma {:induction false} RankUpdate(c: Config, ws: seq<WPc>, i: nat, pc: WPc, quiet: bool)
    requires i < |ws|
    ensures RankSum(c, ws[i := pc], quiet) == RankSum(c, ws, quiet) - WrkRank(c, ws[i], quiet) + WrkRank(c, pc, quiet)
  {
    hide WrkRank;
    if i == 0 {
      assert ws[0 := pc][1..] == ws[1..];
    } else {
      RankUpdate(c, ws[1..], i - 1, pc, quiet);
      assert ws[i := pc][1..] == ws[1..][i - 1 := pc];
    }
  }

  lemma {:induction false} RankQuiet(c: Config, ws: seq<WPc>, was: bool, quiet: bool)
    requires was ==> quiet
    ensures RankSum(c, ws, quiet) <= RankSum(c, ws, was)
  {
    if ws == [] {
    } else {
      RankQuiet(c, ws[1..], was, quiet);
    }
  }

  lemma RankWake(c: Config, pc: WPc, quiet: bool)
    ensures WrkRank(c, if pc == Asleep then Relock else pc, quiet) <= WrkRank(c, pc, quiet) + WAKE_WORKER
  {
  }

  lemma {:induction false} RankWakeAll(c: Config, ws: seq<WPc>, quiet: bool)
    ensures RankSum(c, WakeAll(ws), quiet) <= RankSum(c, ws, quiet) + WAKE_WORKER * |ws|
  {
    if ws == [] {
    } else {
      hide WrkRank;
      RankWakeAll(c, ws[1..], quiet);
      RankWake(c, ws[0], quiet);
      assert WakeAll(ws)[1..] == WakeAll(ws[1..]);
    }
  }

  // A worker step that leaves the manager alone and takes no task.
  lemma MeasureMove(c: Config, s: State, s': State, i: nat)
    requires Moves(s, s', i) && (Quiet(s) ==> Quiet(s'))
    requires s'.hist.taken == s.hist.taken && s'.walk == s.walk
    requires WrkRank(c, s'.ws[i], Quiet(s')) + MgrRank(c, s'.mgr) < WrkRank(c, s.ws[i], Quiet(s')) + MgrRank(c, s.mgr)
    ensures Measure(c, s') < Measure(c, s)
  {
    RankQuiet(c, s.ws, Quiet(s), Quiet(s'));
    RankUpdate(c, s.ws, i, s'.ws[i], Quiet(s'));
  }

  lemma MeasureLoop(c: Config, s: State, i: nat)
    requires LockInv(c, s) && WrkCan(c, s, i, 0) && InLoop(s.ws[i])
    ensures Measure(c, LoopDo(c, s, i)) < Measure(c, s)
  {
    var s' := LoopDo(c, s, i);
    LoopEffect(c, s, i);
    assert WrkLock(s, i);
    hide LockInv;
    MeasureMove(c, s, s', i);
  }

  lemma RingRank(c: Config, s: State, i: nat)
    requires LockInv(c, s) && WrkCan(c, s, i, 0) && InRing(s.ws[i]) && !s.ws[i].AdvanceOut?
    ensures var s' := RingDo(c, s, i);
      && WrkRank(c, s'.ws[i], Quiet(s')) + (if s.ws[i].SignalFull? then WAKE_MANAGER else 0)
         < WrkRank(c, s.ws[i], Quiet(s'))
  {
    assert WrkLock(s, i);
    hide LockInv, Content;
  }

  lemma RingWakes(c: Config, s: State, i: nat)
    requires LockInv(c, s) && WrkCan(c, s, i, 0) && InRing(s.ws[i]) && !s.ws[i].AdvanceOut?
    ensures var s' := RingDo(c, s, i);
      && MgrRank(c, s'.mgr) <= MgrRank(c, s.mgr) + (if s.ws[i].SignalFull? then WAKE_MANAGER else 0)
      && (Quiet(s) ==> Quiet(s')) && s'.hist.taken == s.hist.taken
  {
    assert WrkLock(s, i);
    hide LockInv;
  }

  lemma MeasureRing(c: Config, s: State, i: nat)
    requires LockInv(c, s) && WrkCan(c, s, i, 0) && InRing(s.ws[i]) && !s.ws[i].AdvanceOut?
    ensures Measure(c, RingDo(c, s, i)) < Measure(c, s)
  {
    assert Shape(c, s);
    hide LockInv, RingDo, WrkRank, MgrRank, Quiet, Measure;
    RingEffect(c, s, i);
    RingRank(c, s, i);
    RingWakes(c, s, i);
    MeasureMove(c, s, RingDo(c, s, i), i);
  }

  lemma MeasureTake(c: Config, s: State, i: nat)
    requires LockInv(c, s) && RingInv(c, s) && ScriptInv(c, s)
    requires i < |s.ws| && s.ws[i].AdvanceOut?
    ensures Measure(c, RingDo(c, s, i)) < Measure(c, s)
  {
    var s' := RingDo(c, s, i);
    var all, k := AllTasks(c), s.hist.taken;
    assert s.hist.produced <= all;
    assert s.ws[i].task == Queued(s)[0] == s.hist.produced[k] == all[k];
    hide LockInv, RingInv, ScriptInv, AllTasks, Content;
    assert all[k..][1..] == all[k + 1..];
    assert WrkRank(c, s'.ws[i], Quiet(s)) < WrkRank(c, s.ws[i], Quiet(s)) + Cost(c, all[k]);
    assert s'.mgr == s.mgr && s'.walk == s.walk && Quiet(s') == Quiet(s) && s'.hist.taken == k + 1;
    hide RingDo, WrkRank, RankSum, Quiet, Cost;
    RankUpdate(c, s.ws, i, s'.ws[i], Quiet(s));
  }

  // Every step within fileCopy is one down.
  lemma CopyDown(c: Config, job: Job, off: nat, chunk: seq<byte>, quiet: bool)
    ensures WrkRank(c, OpenTarget(job), quiet) < WrkRank(c, OpenSource(job), quiet)
    ensures WrkRank(c, ReadChunk(job, 0), quiet) < WrkRank(c, OpenTarget(job), quiet)
    ensures WrkRank(c, WriteChunk(job, off, chunk), quiet) < WrkRank(c, ReadChunk(job, off), quiet)
    ensures WrkRank(c, StatLock(job), quiet) < WrkRank(c, ReadChunk(job, off), quiet)
    ensures |chunk| >= 1 && off + |chunk| <= |Content(c, job.task.src)| ==>
      WrkRank(c, ReadChunk(job, off + |chunk|), quiet) < WrkRank(c, WriteChunk(job, off, chunk), quiet)
  {
    hide Content;
  }

  lemma CopyRank(c: Config, s: State, i: nat, pick: nat)
    requires Shape(c, s) && i < |s.ws| && InCopy(s.ws[i]) && WrkCan(c, s, i, pick) && WrkFile(c, s, i)
    ensures var s' := CopyDo(c, s, i, pick);
      WrkRank(c, s'.ws[i], Quiet(s')) < WrkRank(c, s.ws[i], Quiet(s'))
  {
    hide WrkRank, Content, At, Quiet, Holds, WriteAt, OpenWorks;
    var s' := CopyDo(c, s, i, pick);
    match s.ws[i]
    case OpenSource(job) =>
      CopyDown(c, job, 0, [], Quiet(s'));
    case OpenTarget(job) =>
      CopyDown(c, job, 0, [], Quiet(s'));
    case ReadChunk(job, off) =>
      CopyDown(c, job, off, if s'.ws[i].WriteChunk? then s'.ws[i].chunk else [], Quiet(s'));
    case WriteChunk(job, off, chunk) =>
      CopyDown(c, job, off, chunk, Quiet(s'));
  }

  lemma MeasureCopy(c: Config, s: State, i: nat, pick: nat)
    requires Shape(c, s) && i < |s.ws| && InCopy(s.ws[i]) && WrkCan(c, s, i, pick) && WrkFile(c, s, i)
    ensures Measure(c, CopyDo(c, s, i, pick)) < Measure(c, s)
  {
    hide CopyDo, WrkRank, WrkFile, Measure;
    CopyEffect(c, s, i, pick);
    CopyRank(c, s, i, pick);
    MeasureMove(c, s, CopyDo(c, s, i, pick), i);
  }

  lemma MeasureStats(c: Config, s: State, i: nat)
    requires Shape(c, s) && i < |s.ws| && InStats(s.ws[i])
    ensures Measure(c, StatsDo(c, s, i)) < Measure(c, s)
  {
    var s' := StatsDo(c, s, i);
    StatsEffect(c, s, i);
    hide Content, At;
    assert WrkRank(c, s'.ws[i], Quiet(s')) < WrkRank(c, s.ws[i], Quiet(s'));
    hide StatsDo, WrkRank;
    MeasureMove(c, s, s', i);
  }

  lemma MeasureWrk(c: Config, s: State, i: nat, pick: nat, files0: map<string, seq<byte>>)
    requires Inv(c, s, files0) && WrkCan(c, s, i, pick)
    ensures Measure(c, WrkDo(c, s, i, pick)) < Measure(c, s)
  {
    var pc := s.ws[i];
    assert WrkFile(c, s, i);
    hide LockInv, RingInv, ScriptInv, FileInv, WrkFile, LoopDo, RingDo, CopyDo, StatsDo, Measure;
    if InLoop(pc) { MeasureLoop(c, s, i); }
    else if pc.AdvanceOut? { MeasureTake(c, s, i); }
    else if InRing(pc) { MeasureRing(c, s, i); }
    else if InCopy(pc) { MeasureCopy(c, s, i, pick); }
    else { MeasureStats(c, s, i); }
  }

  // The manager's own statements, waking nobody.
  lemma MeasurePut(c: Config, s: State, pick: nat)
    requires LockInv(c, s) && s.mgr != Walking && MgrCan(c, s, pick) && !s.mgr.Broadcast? && !s.mgr.PutSignal?
    ensures Measure(c, PutDo(c, s, pick)) < Measure(c, s)
  {
    var s' := PutDo(c, s, pick);
    assert s'.ws == s.ws && s'.walk == s.walk && s'.hist.taken == s.hist.taken && (Quiet(s) ==> Quiet(s'));
    assert MgrRank(c, s'.mgr) < MgrRank(c, s.mgr);
    hide LockInv, PutDo, MgrRank;
    RankQuiet(c, s.ws, Quiet(s), Quiet(s'));
  }

  // Waking costs less than the manager has saved up for it.
  lemma MeasureBroadcast(c: Config, s: State, pick: nat)
    requires Shape(c, s) && s.mgr.Broadcast?
    ensures Measure(c, PutDo(c, s, pick)) < Measure(c, s)
  {
    RankWakeAll(c, s.ws, Quiet(s));
    hide RankSum, WakeAll;
  }

  lemma MeasureSignal(c: Config, s: State, pick: nat)
    requires Shape(c, s) && MgrCan(c, s, pick) && s.mgr.PutSignal?
    ensures Measure(c, PutDo(c, s, pick)) < Measure(c, s)
  {
    var s' := PutDo(c, s, pick);
    assert s'.ws == if SomeoneAsleep(s) then s.ws[pick := Relock] else s.ws;
    assert s'.walk == s.walk && s'.hist == s.hist && Quiet(s') == Quiet(s);
    assert MgrRank(c, s'.mgr) + WAKE_WORKER < MgrRank(c, s.mgr);
    assert WrkRank(c, Relock, Quiet(s)) == WrkRank(c, Asleep, Quiet(s)) + WAKE_WORKER;
    hide PutDo, MgrRank, WrkRank, RankSum, CostOf, AllTasks, WalkMeasure, Quiet;
    if SomeoneAsleep(s) { RankUpdate(c, s.ws, pick, Relock, Quiet(s)); }
  }

  lemma MeasureWalk(c: Config, s: State)
    requires Shape(c, s) && s.mgr == Walking
    ensures Measure(c, WalkDo(c, s)) < Measure(c, s)
  {
    var s' := WalkDo(c, s);
    if s.walk.list != [] {
      WalkTerminates(s.walk);
      hide Advance, WalkMeasure;
    }
  }

  lemma MeasureMgr(c: Config, s: State, pick: nat)
    requires LockInv(c, s) && MgrCan(c, s, pick)
    ensures Measure(c, MgrDo(c, s, pick)) < Measure(c, s)
  {
    assert Shape(c, s);
    hide LockInv, WalkDo, PutDo, Measure;
    if s.mgr == Walking { MeasureWalk(c, s); }
    else if s.mgr.Broadcast? { MeasureBroadcast(c, s, pick); }
    else if s.mgr.PutSignal? { MeasureSignal(c, s, pick); }
    else { MeasurePut(c, s, pick); }
  }

  lemma MeasureSpurious(c: Config, s: State, l: Label)
    requires Shape(c, s) && Spurious(l) && Can(c, s, l)
    ensures Measure(c, Do(c, s, l)) <= Measure(c, s) + WAKE_WORKER
  {
    if l.SpuriousWrk? {
      RankUpdate(c, s.ws, l.id, Relock, Quiet(s));
    }
  }

  // Every step uses up one unit; a spurious wake-up gives back a few.
  lemma StepDecreases(c: Config, s: State, l: Label, s': State, files0: map<string, seq<byte>>)
    requires Inv(c, s, files0) && Next(c, s, l, s')
    ensures Measure(c, s') + 1 <= Measure(c, s) + (if Spurious(l) then WAKE_WORKER + 1 else 0)
  {
    hide Measure, LockInv, MgrDo, WrkDo;
    match l
    case Mgr(pick) => MeasureMgr(c, s, pick);
    case Wrk(i, pick) => MeasureWrk(c, s, i, pick, files0);
    case _ => MeasureSpurious(c, s, l);
  }

  function SpuriousCount(ls: seq<Label>): nat {
    if ls == [] then 0 else SpuriousCount(ls[..|ls| - 1]) + (if Spurious(ls[|ls| - 1]) then 1 else 0)
  }

  // No run is longer than its first state allows, plus a fixed amount for each spurious
  // wake-up: no schedule keeps the copier busy for ever.
  lemma {:induction false} RunBounded(c: Config, run: seq<State>, ls: seq<Label>)
    requires IsRun(c, run, ls)
    ensures |ls| + Measure(c, run[|ls|]) <= Measure(c, run[0]) + (WAKE_WORKER + 1) * SpuriousCount(ls)
    decreases |ls|
  {
    hide Measure;
    if ls == [] {
    } else {
      var n := |ls| - 1;
      Shorter(c, run, ls);
      RunBounded(c, run[..n + 1], ls[..n]);
      RunSafe(c, run, ls, n);
      hide Inv, Next;
      assert Next(c, run[n], ls[n], run[n + 1]);
      StepDecreases(c, run[n], ls[n], run[n + 1], run[0].disk.files);
      assert run[..n + 1][n] == run[n] && run[..n + 1][0] == run[0];
    }
  }

  lemma Shorter(c: Config, run: seq<State>, ls: seq<Label>)
    requires IsRun(c, run, ls) && ls != []
    ensures IsRun(c, run[..|ls|], ls[..|ls| - 1])
  {
    hide Init, Next;
    forall k | 0 <= k < |ls| - 1
      ensures Next(c, run[..|ls|][k], ls[..|ls| - 1][k], run[..|ls|][k + 1])
    {
      assert Next(c, run[k], ls[k], run[k + 1]);
    }
  }

  lemma Longer(c: Config, run: seq<State>, ls: seq<Label>, l: Label, s': State)
    requires IsRun(c, run, ls) && Next(c, run[|ls|], l, s')
    ensures IsRun(c, run + [s'], ls + [l])
  {
    hide Init, Next;
    var run', ls' := run + [s'], ls + [l];
    forall k | 0 <= k < |ls'|
      ensures Next(c, run'[k], ls'[k], run'[k + 1])
    {
      if k < |ls| { assert Next(c, run[k], ls[k], run[k + 1]); }
    }
  }

  // Any run goes on, without further spurious wake-ups, to a state where nothing more can
  // happen: all threads have returned, or the copy is complete and a worker that was
  // caught falling asleep by the broadcast sleeps.
  lemma {:induction false} ComesToRest(c: Config, run: seq<State>, ls: seq<Label>)
    returns (run': seq<State>, ls': seq<Label>)
    requires IsRun(c, run, ls)
    ensures IsRun(c, run', ls') && run <= run' && ls <= ls' && forall j :: |ls| <= j < |ls'| ==> !Spurious(ls'[j])
    ensures Shape(c, run'[|ls'|]) && Stuck(c, run'[|ls'|])
    ensures Final(run'[|ls'|]) || Stalled(c, run'[|ls'|])
    ensures Final(run'[|ls'|]) <==> forall i: nat :: i in run'[|ls'|].hist.committed ==> Rescued(run', ls', |ls'|, i)
    decreases Measure(c, run[|ls|])
  {
    var s := run[|ls|];
    RunSafe(c, run, ls, |ls|);
    assert Shape(c, s);
    hide Measure, Inv, Shape, Do, Can, Spurious, Stuck, Final, Stalled, Rescued;
    if Stuck(c, s) {
      run', ls' := run, ls;
      StuckStates(c, run, ls);
      FinishesUnlessCaughtAtBroadcast(c, run, ls);
    } else {
      var l, s' := OneMore(c, run, ls);
      Longer(c, run, ls, l, s');
      run', ls' := ComesToRest(c, run + [s'], ls + [l]);
    }
  }

  lemma OneMore(c: Config, run: seq<State>, ls: seq<Label>) returns (l: Label, s': State)
    requires IsRun(c, run, ls) && Shape(c, run[|ls|]) && !Stuck(c, run[|ls|])
    ensures Next(c, run[|ls|], l, s') && !Spurious(l) && Measure(c, s') < Measure(c, run[|ls|])
  {
    var s := run[|ls|];
    RunSafe(c, run, ls, |ls|);
    hide Measure, Inv, Shape, Do, Can, IsRun;
    l :| !Spurious(l) && Can(c, s, l);
    s' := Do(c, s, l);
    assert Next(c, s, l, s');
    StepDecreases(c, s, l, s', run[0].disk.files);
  }

  // The workers that no spurious wake-up has helped since the broadcast.
  ghost function Unrescued(c: Config, run: seq<State>, ls: seq<Label>): set<nat>
    requires |ls| <= |run|
  {
    set i: nat | i < c.workers && !Rescued(run, ls, |ls|, i)
  }

  lemma StillRescued(c: Config, run: seq<State>, ls: seq<Label>, run': seq<State>, ls': seq<Label>)
    requires |ls| <= |run| && |ls'| <= |run'| && run <= run' && ls <= ls'
    ensures Unrescued(c, run', ls') <= Unrescued(c, run, ls)
  {
    forall i: nat | Rescued(run, ls, |ls|, i) ensures Rescued(run', ls', |ls'|, i) {
      var j: nat :| j < |ls| && run[j].mgr.Finished? && ls[j] == SpuriousWrk(i);
      assert run'[j].mgr.Finished? && ls'[j] == SpuriousWrk(i);
    }
  }

  // Waking up a worker that sleeps at a standstill.
  lemma Wake(c: Config, run: seq<State>, ls: seq<Label>) returns (i: nat, run': seq<State>, ls': seq<Label>)
    requires IsRun(c, run, ls) && Stalled(c, run[|ls|])
    ensures IsRun(c, run', ls') && run <= run' && ls <= ls'
    ensures i in Unrescued(c, run, ls) && i !in Unrescued(c, run', ls')
  {
    var s := run[|ls|];
    RunSafe(c, run, ls, |ls|);
    assert Shape(c, s);
    i :| i < |s.ws| && s.ws[i] == Asleep;
    StrandedThroughout(c, run, ls, |ls|, i);
    var l := SpuriousWrk(i);
    hide Inv, Stalled, Shape, IsRun;
    Longer(c, run, ls, l, Do(c, s, l));
    run', ls' := run + [Do(c, s, l)], ls + [l];
    assert run'[|ls|] == s && ls'[|ls|] == l;
  }

  // Any run can go on to one that has finished: spurious wake-ups help everyone the
  // broadcast has missed.
  lemma {:induction false} CanFinish(c: Config, run: seq<State>, ls: seq<Label>)
    returns (run': seq<State>, ls': seq<Label>)
    requires IsRun(c, run, ls)
    ensures IsRun(c, run', ls') && run <= run' && ls <= ls'
    ensures Final(run'[|ls'|]) && Released(run'[|ls'|])
    decreases Unrescued(c, run, ls)
  {
    run', ls' := ComesToRest(c, run, ls);
    StillRescued(c, run, ls, run', ls');
    hide Stalled, Stuck, Rescued, Unrescued;
    if Final(run'[|ls'|]) {
      NoneRescued(c, run', ls', 0);
      assert run'[|ls'|].ws[0].Returned?;
    } else {
      var i, run1, ls1 := Wake(c, run', ls');
      StillRescued(c, run', ls', run1, ls1);
      run', ls' := CanFinish(c, run1, ls1);
    }
  }
}
