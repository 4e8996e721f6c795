// Where the copier can come to a standstill.
module CopierStuck {
  import opened SourceTree
  import opened Counting
  import opened Copier
  import opened CopierLocks
  import opened CopierScript
  import opened CopierFiles
  import opened CopierBarrier
  import opened CopierStats
  import opened CopierWake
  import opened CopierRuns

  // No thread can take a step of its own; only a spurious wake-up could go on.
  ghost predicate Stuck(c: Config, s: State)
    requires Shape(c, s)
  {
    forall l: Label :: !Spurious(l) ==> !Can(c, s, l)
  }

  // Manager and workers have returned; main can join them all.
  predicate Final(s: State) {
    s.mgr.Finished? && forall i: nat :: i < |s.ws| ==> s.ws[i].Returned?
  }

  // The shutdown stall: all work is done, but a worker sleeps on not_empty and the
  // others wait for it at the second barrier.
  ghost predicate Stalled(c: Config, s: State) {
    && s.mgr.Finished? && s.count == 0
    && s.hist.produced == AllTasks(c) && s.hist.taken == |s.hist.produced|
    && (forall k: nat :: k < |s.hist.produced| ==> k in s.hist.copied && Mirrored(c, s, s.hist.produced[k]))
    && (forall i: nat :: i < |s.ws| ==> s.ws[i] == Asleep || s.ws[i] == Ended(1))
    && (exists i: nat :: i < |s.ws| && s.ws[i] == Asleep)
  }

  // What a worker without an enabled step is waiting for.
  lemma CannotMove(c: Config, s: State, i: nat)
    requires Shape(c, s) && i < |s.ws| && forall pick: nat :: !WrkCan(c, s, i, pick)
    ensures match s.ws[i]
      case Asleep => true
      case Returned => true
      case Started(g) => s.barrier.phase <= g
      case Ended(g) => s.barrier.phase <= g
      case Lock => s.lock.Some?
      case Relock => s.lock.Some?
      case StatLock(_) => s.statLock.Some?
      case _ => false
  {
    hide Content;
    var pick := 0;
    if s.ws[i].ReadChunk? {
      var left := |Content(c, s.ws[i].job.task.src)| - s.ws[i].off;
      pick := if left > CHUNK then CHUNK else if left > 0 then left else 0;
    }
    assert !WrkCan(c, s, i, pick);
  }

  lemma WorkerWaits(c: Config, s: State, i: nat)
    requires Shape(c, s) && Stuck(c, s) && i < |s.ws|
    ensures match s.ws[i]
      case Asleep => true
      case Returned => true
      case Started(g) => s.barrier.phase <= g
      case Ended(g) => s.barrier.phase <= g
      case Lock => s.lock.Some?
      case Relock => s.lock.Some?
      case StatLock(_) => s.statLock.Some?
      case _ => false
  {
    forall pick: nat ensures !WrkCan(c, s, i, pick) {
      assert !Can(c, s, Wrk(i, pick));
    }
    CannotMove(c, s, i);
  }

  lemma ManagerWaits(c: Config, s: State)
    requires Shape(c, s) && Stuck(c, s)
    ensures s.mgr.PutAsleep? || s.mgr.Finished? || ((s.mgr.PutLock? || s.mgr.PutRelock?) && s.lock.Some?)
  {
    var pick := 0;
    if SomeoneAsleep(s) {
      pick :| 0 <= pick < |s.ws| && s.ws[pick] == Asleep;
    }
    assert !Can(c, s, Mgr(pick));
  }

  // A lock that is held is held by a thread that can go on.
  lemma LocksFree(c: Config, s: State)
    requires LockInv(c, s) && StatInv(c, s) && Stuck(c, s)
    ensures s.lock == None && s.statLock == None
  {
    if s.lock.Some? {
      match s.lock.value
      case Manager => ManagerWaits(c, s);
      case Worker(i) =>
        assert WrkLock(s, i);
        WorkerWaits(c, s, i);
    }
    if s.statLock.Some? {
      assert InSection(s.ws[s.statLock.value]);
      WorkerWaits(c, s, s.statLock.value);
    }
  }

  // Without locks in the way, workers wait only to be woken or for the second barrier.
  lemma WorkersResting(c: Config, s: State, i: nat)
    requires LockInv(c, s) && StatInv(c, s) && BarrierInv(c, s) && Stuck(c, s) && i < |s.ws|
    ensures s.ws[i] == Asleep || s.ws[i].Returned? || (s.ws[i] == Ended(1) && s.barrier.phase == 1)
  {
    LocksFree(c, s);
    forall j: nat | j < |s.ws| ensures !s.ws[j].Begin? {
      WorkerWaits(c, s, j);
    }
    hide LockInv, StatInv, Stuck;
    FirstBarrierOpens(c, s);
    WorkerWaits(c, s, i);
    assert PhaseOK(s.barrier.phase, s.ws[i]);
  }

  lemma FirstBarrierOpens(c: Config, s: State)
    requires BarrierInv(c, s) && forall i: nat :: i < |s.ws| ==> !s.ws[i].Begin?
    ensures s.barrier.phase > 0
  {
    if s.barrier.phase == 0 {
      forall i: nat | i < |s.ws| ensures AtFirst(s.ws[i]) {
        assert PhaseOK(s.barrier.phase, s.ws[i]);
      }
      CountBounds(AtFirst, s.ws);
    }
  }

  // The manager cannot be the one that is stuck: if it sleeps the ring is full, so some
  // worker is awake, and it has not left the loop.
  lemma ManagerFinishes(c: Config, s: State)
    requires LockInv(c, s) && StatInv(c, s) && BarrierInv(c, s) && WakeInv(c, s) && Stuck(c, s)
    ensures s.mgr.Finished? && s.count == 0
  {
    LocksFree(c, s);
    ManagerWaits(c, s);
    if s.count > 0 {
      var i: nat :| i < |s.ws| && s.ws[i] != Asleep;
      assert WrkLock(s, i);
      WorkersResting(c, s, i);
    }
  }

  // Any state a run can be stuck in is final, or is the shutdown stall.
  lemma StuckStates(c: Config, run: seq<State>, ls: seq<Label>)
    requires IsRun(c, run, ls) && Shape(c, run[|ls|]) && Stuck(c, run[|ls|])
    ensures Final(run[|ls|]) || Stalled(c, run[|ls|])
  {
    var s, files0 := run[|ls|], run[0].disk.files;
    RunSafe(c, run, ls, |ls|);
    hide IsRun;
    Resting(c, s, files0);
    hide Inv, Stuck;
    if exists i: nat :: i < |s.ws| && s.ws[i] == Asleep {
      SleeperStalls(c, s, files0);
    } else {
      KeptBarrier(c, s, files0);
      NobodyAsleep(c, s);
    }
  }

  // Where everybody is when nothing can happen.
  lemma Resting(c: Config, s: State, files0: map<string, seq<byte>>)
    requires Inv(c, s, files0) && Shape(c, s) && Stuck(c, s)
    ensures s.mgr.Finished? && s.count == 0
    ensures forall i: nat :: i < |s.ws| ==>
      s.ws[i] == Asleep || s.ws[i].Returned? || (s.ws[i] == Ended(1) && s.barrier.phase == 1)
  {
    assert LockInv(c, s) && StatInv(c, s) && BarrierInv(c, s) && WakeInv(c, s);
    hide Inv, Stuck, LockInv, StatInv, BarrierInv, WakeInv;
    ManagerFinishes(c, s);
    forall i: nat | i < |s.ws|
      ensures s.ws[i] == Asleep || s.ws[i].Returned? || (s.ws[i] == Ended(1) && s.barrier.phase == 1)
    {
      WorkersResting(c, s, i);
    }
  }

  lemma KeptBarrier(c: Config, s: State, files0: map<string, seq<byte>>)
    requires Inv(c, s, files0)
    ensures BarrierInv(c, s)
  {
  }

  // One worker asleep: nobody is past the second barrier, and all the work is done.
  lemma SleeperStalls(c: Config, s: State, files0: map<string, seq<byte>>)
    requires Inv(c, s, files0) && s.mgr.Finished? && s.count == 0
    requires forall i: nat :: i < |s.ws| ==>
      s.ws[i] == Asleep || s.ws[i].Returned? || (s.ws[i] == Ended(1) && s.barrier.phase == 1)
    requires exists i: nat :: i < |s.ws| && s.ws[i] == Asleep
    ensures Stalled(c, s)
  {
    KeptBarrier(c, s, files0);
    var i: nat :| i < |s.ws| && s.ws[i] == Asleep;
    assert PhaseOK(s.barrier.phase, s.ws[i]);
    forall j: nat | j < |s.ws| ensures !s.ws[j].Returned? {
      assert PhaseOK(s.barrier.phase, s.ws[j]);
    }
    AllTakenAndCopied(c, s, files0);
    hide Inv, BarrierInv, Mirrored;
  }

  lemma AllTakenAndCopied(c: Config, s: State, files0: map<string, seq<byte>>)
    requires Inv(c, s, files0) && s.mgr.Finished? && s.count == 0
    requires forall i: nat :: i < |s.ws| ==>
      s.ws[i] == Asleep || s.ws[i].Returned? || (s.ws[i] == Ended(1) && s.barrier.phase == 1)
    ensures s.hist.produced == AllTasks(c) && s.hist.taken == |s.hist.produced|
    ensures forall k: nat :: k < |s.hist.produced| ==> k in s.hist.copied && Mirrored(c, s, s.hist.produced[k])
  {
    assert LockInv(c, s) && !s.active;
    AllTaken(c, s, files0);
    AllRecorded(c, s);
    hide AllTasks;
  }

  lemma NobodyAsleep(c: Config, s: State)
    requires BarrierInv(c, s)
    requires forall i: nat :: i < |s.ws| ==> s.ws[i].Returned? || (s.ws[i] == Ended(1) && s.barrier.phase == 1)
    ensures forall i: nat :: i < |s.ws| ==> s.ws[i].Returned?
  {
    CountBounds(AtSecond, s.ws);
    if s.barrier.phase == 1 {
      forall i: nat | i < |s.ws| ensures AtSecond(s.ws[i]) {
        assert PhaseOK(s.barrier.phase, s.ws[i]);
      }
      assert false;
    }
  }

  // While the manager runs there is no deadlock.
  lemma NoDeadlockBeforeTheEnd(c: Config, run: seq<State>, ls: seq<Label>)
    requires IsRun(c, run, ls) && Shape(c, run[|ls|]) && !run[|ls|].mgr.Finished?
    ensures exists l: Label :: !Spurious(l) && Can(c, run[|ls|], l)
  {
    if Stuck(c, run[|ls|]) {
      StuckStates(c, run, ls);
    }
  }

  // ---------------------------------------------------------------- when it happens

  // Worker i has woken up spuriously in the first n steps, after the broadcast.
  predicate Rescued(run: seq<State>, ls: seq<Label>, n: nat, i: nat)
    requires n <= |ls| <= |run|
  {
    exists j: nat :: j < n && run[j].mgr.Finished? && ls[j] == SpuriousWrk(i)
  }

  lemma RescuedMore(run: seq<State>, ls: seq<Label>, n: nat, i: nat)
    requires n < |ls| <= |run|
    ensures Rescued(run, ls, n + 1, i) <==>
      Rescued(run, ls, n, i) || (run[n].mgr.Finished? && ls[n] == SpuriousWrk(i))
  {
  }

  // After the broadcast, the workers asleep or on the way to sleep are exactly those it
  // missed and no spurious wake-up has helped since.
  lemma {:induction false} StrandedThroughout(c: Config, run: seq<State>, ls: seq<Label>, n: nat, i: nat)
    requires IsRun(c, run, ls) && n < |run| == |ls| + 1 && i < c.workers
    ensures i < |run[n].ws|
    ensures if run[n].mgr.Finished? then
              Stranded(run[n].ws[i]) <==> i in run[n].hist.committed && !Rescued(run, ls, n, i)
            else !Rescued(run, ls, n, i)
  {
    hide *;
    if n == 0 {
      NoneRescued(c, run, ls, i);
    } else {
      StrandedThroughout(c, run, ls, n - 1, i);
      RescuedMore(run, ls, n - 1, i);
      StepAt(c, run, ls, n - 1);
      if run[n - 1].mgr.Finished? {
        StrandStep(c, run[n - 1], ls[n - 1], run[n], i);
      } else if run[n].mgr.Finished? {
        BroadcastStrands(c, run[n - 1], ls[n - 1], run[n], i);
      }
    }
  }

  lemma NoneRescued(c: Config, run: seq<State>, ls: seq<Label>, i: nat)
    requires IsRun(c, run, ls)
    ensures |run[0].ws| == c.workers > 0 && !run[0].mgr.Finished? && !Rescued(run, ls, 0, i)
  {
    assert Init(c, run[0]);
  }

  lemma StepAt(c: Config, run: seq<State>, ls: seq<Label>, n: nat)
    requires IsRun(c, run, ls) && n + 1 < |run|
    ensures n < |ls| && LockInv(c, run[n]) && Next(c, run[n], ls[n], run[n + 1])
    ensures |run[n].ws| == |run[n + 1].ws| == c.workers > 0
  {
    RunSafe(c, run, ls, n);
    hide LockInv, MgrDo, WrkDo;
  }

  lemma {:induction false} CaughtAreWorkers(c: Config, run: seq<State>, ls: seq<Label>, n: nat)
    requires IsRun(c, run, ls) && n < |run|
    ensures forall i: nat :: i in run[n].hist.committed ==> i < c.workers
  {
    hide *;
    CaughtOnlyAtTheEnd(c, run, ls, n);
    if n == 0 {
      NoneRescued(c, run, ls, 0);
    } else {
      CaughtAreWorkers(c, run, ls, n - 1);
      StepAt(c, run, ls, n - 1);
      if run[n - 1].mgr.Finished? {
        StrandStep(c, run[n - 1], ls[n - 1], run[n], 0);
      } else if run[n].mgr.Finished? {
        BroadcastStrands(c, run[n - 1], ls[n - 1], run[n], 0);
      }
    }
  }

  lemma CaughtOnlyAtTheEnd(c: Config, run: seq<State>, ls: seq<Label>, n: nat)
    requires IsRun(c, run, ls) && n < |run|
    ensures !run[n].mgr.Finished? ==> run[n].hist.committed == {}
  {
    RunSafe(c, run, ls, n);
    assert WakeInv(c, run[n]);
  }

  // A run that has come to rest has finished if and only if every worker that was between
  // reading `active` on line 209 and falling asleep when the manager broadcast has since
  // been helped by a spurious wake-up.
  lemma FinishesUnlessCaughtAtBroadcast(c: Config, run: seq<State>, ls: seq<Label>)
    requires IsRun(c, run, ls) && Shape(c, run[|ls|]) && Stuck(c, run[|ls|])
    ensures Final(run[|ls|]) <==> forall i: nat :: i in run[|ls|].hist.committed ==> Rescued(run, ls, |ls|, i)
  {
    var s := run[|ls|];
    StuckStates(c, run, ls);
    forall i: nat | i < |s.ws|
      ensures Stranded(s.ws[i]) <==> i in s.hist.committed && !Rescued(run, ls, |ls|, i)
    {
      StrandedThroughout(c, run, ls, |ls|, i);
    }
    CaughtAreWorkers(c, run, ls, |ls|);
    hide IsRun, Stuck, Rescued;
    if Final(s) {
      forall i: nat | i in s.hist.committed ensures Rescued(run, ls, |ls|, i) {
        assert s.ws[i].Returned?;
      }
    }
  }

  // In particular, nobody caught means that the run has finished, whatever wakes up when;
  // and while no worker wakes up spuriously after the broadcast, only then.
  lemma FinishesIfNobodyCaught(c: Config, run: seq<State>, ls: seq<Label>)
    requires IsRun(c, run, ls) && Shape(c, run[|ls|]) && Stuck(c, run[|ls|])
    ensures run[|ls|].hist.committed == {} ==> Final(run[|ls|])
    ensures (forall j: nat :: j < |ls| && run[j].mgr.Finished? ==> !ls[j].SpuriousWrk?) ==>
      (Final(run[|ls|]) <==> run[|ls|].hist.committed == {})
  {
    FinishesUnlessCaughtAtBroadcast(c, run, ls);
    hide IsRun, Stuck, Final, Shape;
  }
}
