// Results about whole runs: safety, exactly-once, and the mirrored tree.
module CopierRuns {
  import opened SourceTree
  import opened Walk
  import opened WalkTasks
  import opened Copier
  import opened CopierLocks
  import opened CopierRing
  import opened CopierScript
  import opened CopierJobs
  import opened CopierFiles
  import opened CopierBarrier
  import opened CopierStats
  import opened CopierWake
  import R = Ring

  ghost predicate Inv(c: Config, s: State, files0: map<string, seq<byte>>) {
    && LockInv(c, s) && RingInv(c, s) && ScriptInv(c, s) && JobInv(s) && PairInv(s) && FileInv(c, s, files0)
    && BarrierInv(c, s) && StatInv(c, s) && WakeInv(c, s)
  }

  lemma InvInit(c: Config, s: State)
    requires Init(c, s)
    ensures Inv(c, s, s.disk.files)
  {
    LockInit(c, s);
    RingInit(c, s);
    ScriptInit(c, s);
    JobInit(c, s);
    FileInit(c, s);
    BarrierInit(c, s);
    StatInit(c, s);
    WakeInit(c, s);
  }

  lemma InvStep(c: Config, s: State, l: Label, s': State, files0: map<string, seq<byte>>)
    requires Inv(c, s, files0) && Next(c, s, l, s')
    ensures Inv(c, s', files0)
  {
    assert s.hist.taken <= |s.hist.produced|;
    hide LockInv, RingInv, ScriptInv, JobInv, PairInv, FileInv, BarrierInv, StatInv, WakeInv, Next;
    LockStep(c, s, l, s');
    RingStep(c, s, l, s');
    ScriptStep(c, s, l, s');
    JobStep(c, s, l, s');
    PairStep(c, s, l, s');
    FileStep(c, s, l, s', files0);
    BarrierStep(c, s, l, s');
    StatStep(c, s, l, s');
    WakeStep(c, s, l, s');
  }

  // Every state of every run satisfies the invariant.
  lemma {:induction false} RunSafe(c: Config, run: seq<State>, ls: seq<Label>, k: nat)
    requires IsRun(c, run, ls) && k < |run|
    ensures Inv(c, run[k], run[0].disk.files)
  {
    hide Inv;
    if k == 0 {
      InvInit(c, run[0]);
    } else {
      RunSafe(c, run, ls, k - 1);
      hide Next;
      assert Next(c, run[k - 1], ls[k - 1], run[k - 1 + 1]);
      InvStep(c, run[k - 1], ls[k - 1], run[k], run[0].disk.files);
    }
  }

  // ---------------------------------------------------------------- at the second barrier

  // A thread has come back from the second barrier_wait.
  predicate Released(s: State) {
    exists i: nat :: i < |s.ws| && s.ws[i].Returned?
  }

  lemma ReleasedMeansAllOver(c: Config, s: State, files0: map<string, seq<byte>>)
    requires Inv(c, s, files0) && Released(s)
    ensures Quiet(s) && forall i: nat :: i < |s.ws| ==> Over(s.ws[i])
  {
    var i: nat :| i < |s.ws| && s.ws[i].Returned?;
    assert PhaseOK(s.barrier.phase, s.ws[i]);
    forall j: nat | j < |s.ws| ensures Over(s.ws[j]) {
      assert PhaseOK(s.barrier.phase, s.ws[j]);
    }
    assert WrkLock(s, i);
  }

  lemma AllTaken(c: Config, s: State, files0: map<string, seq<byte>>)
    requires Inv(c, s, files0) && Quiet(s)
    ensures s.hist.produced == AllTasks(c) && s.hist.taken == |s.hist.produced|
  {
    AllProduced(c, s) by {
      hide ScriptInv;
      assert ManagerOver(s.mgr);
    }
    hide *;
    assert s.hist.taken == |s.hist.produced| by {
      QuietEmpty(c, s);
    }
  }

  lemma QuietEmpty(c: Config, s: State)
    requires LockInv(c, s) && RingInv(c, s) && Quiet(s)
    ensures s.hist.taken == |s.hist.produced|
  {
    if s.lock.Some? && s.lock.value.Worker? {
      assert WrkLock(s, s.lock.value.id);
    }
  }

  // A worker whose task is not recorded is still in the loop.
  lemma AllRecorded(c: Config, s: State)
    requires JobInv(s) && forall i: nat :: i < |s.ws| ==> !Untallied(s.ws[i])
    ensures forall k: nat :: k < s.hist.taken ==> k in s.hist.copied && k in s.hist.tallied
    ensures NoDup(s.hist.copied) && NoDup(s.hist.tallied)
    ensures forall k :: k in s.hist.copied || k in s.hist.tallied ==> k < s.hist.taken
  {
  }

  ghost function TaskBytes(c: Config, ts: seq<Task>): nat {
    if ts == [] then 0 else TaskBytes(c, ts[..|ts| - 1]) + |Content(c, ts[|ts| - 1].src)|
  }

  // Each position below n occurs once, and nothing else does.
  ghost predicate Covers(ids: seq<nat>, n: nat) {
    NoDup(ids) && forall k: nat :: k in ids <==> k < n
  }

  function Without<T>(s: seq<T>, p: nat): (r: seq<T>)
    requires p < |s|
    ensures |r| == |s| - 1
  {
    s[..p] + s[p + 1..]
  }

  lemma WithoutAt<T>(s: seq<T>, p: nat, k: nat)
    requires p < |s| && k < |s| - 1
    ensures Without(s, p)[k] == s[if k < p then k else k + 1]
  {
  }

  lemma WithoutCount<T>(s: seq<T>, p: nat)
    requires p < |s|
    ensures multiset(s) == multiset(Without(s, p)) + multiset{s[p]}
  {
    assert s == s[..p] + [s[p]] + s[p + 1..];
  }

  lemma TopAt(ids: seq<nat>, n: nat) returns (p: nat)
    requires Covers(ids, n) && n > 0
    ensures p < |ids| && ids[p] == n - 1 && Covers(Without(ids, p), n - 1)
  {
    assert n - 1 in ids;
    p :| p < |ids| && ids[p] == n - 1;
    var less := Without(ids, p);
    forall k: nat ensures k in less <==> k < n - 1 {
      if k in less { WithoutMember(ids, p, k); }
      if k < n - 1 {
        assert k in ids;
        var q: nat :| q < |ids| && ids[q] == k;
        assert k == if q < p then less[q] else less[q - 1];
      }
    }
  }

  lemma WithoutMember(ids: seq<nat>, p: nat, k: nat)
    requires NoDup(ids) && p < |ids| && k in Without(ids, p)
    ensures k in ids && k != ids[p]
  {
    var less := Without(ids, p);
    var q: nat :| q < |less| && less[q] == k;
    assert k == if q < p then ids[q] else ids[q + 1];
  }

  lemma CoversNothing(ids: seq<nat>)
    requires Covers(ids, 0)
    ensures ids == []
  {
    if ids != [] { HeadIn(ids); }
  }

  lemma HeadIn(ids: seq<nat>)
    requires ids != []
    ensures ids[0] in ids
  {
  }

  lemma {:induction false} TotalRemove(c: Config, produced: seq<Task>, ids: seq<nat>, p: nat)
    requires p < |ids|
    ensures TotalSize(c, produced, ids) == TotalSize(c, produced, Without(ids, p)) + SizeOf(c, produced, ids[p])
    decreases |ids|
  {
    hide SizeOf;
    var n := |ids| - 1;
    var less := Without(ids, p);
    if p == n {
      assert less == ids[..n];
    } else {
      TotalRemove(c, produced, ids[..n], p);
      assert less[..n - 1] == Without(ids[..n], p);
      assert less[n - 1] == ids[n];
    }
  }

  // Such positions add up to the first n tasks.
  lemma {:induction false} CoverAll(c: Config, produced: seq<Task>, ids: seq<nat>, n: nat)
    requires n <= |produced| && Covers(ids, n)
    ensures |ids| == n && TotalSize(c, produced, ids) == TaskBytes(c, produced[..n])
    decreases n
  {
    hide Covers, Without, TotalSize, TaskBytes, SizeOf;
    if n == 0 {
      CoversNothing(ids);
      NothingTotals(c, produced);
    } else {
      BytesMore(c, produced, n);
      var p := TopAt(ids, n);
      TotalRemove(c, produced, ids, p);
      CoverAll(c, produced, Without(ids, p), n - 1);
    }
  }

  lemma NothingTotals(c: Config, produced: seq<Task>)
    ensures TotalSize(c, produced, []) == 0 && TaskBytes(c, produced[..0]) == 0
  {
  }

  lemma BytesMore(c: Config, produced: seq<Task>, n: nat)
    requires 0 < n <= |produced|
    ensures TaskBytes(c, produced[..n]) == TaskBytes(c, produced[..n - 1]) + SizeOf(c, produced, n - 1)
  {
    assert produced[..n][..n - 1] == produced[..n - 1];
    hide Content;
  }

  // And they pick those tasks in some order.
  lemma {:induction false} SamePairs(produced: seq<Task>, ids: seq<nat>, pairs: seq<Task>, n: nat)
    requires n <= |produced| && Covers(ids, n) && |ids| == |pairs|
    requires forall k: nat :: k < |ids| ==> ids[k] < |produced| && pairs[k] == produced[ids[k]]
    ensures multiset(pairs) == multiset(produced[..n])
    decreases n
  {
    if n == 0 {
      CoversNothing(ids);
    } else {
      hide Covers, Without;
      var p := TopAt(ids, n);
      var fewer, rest := Without(ids, p), Without(pairs, p);
      forall k: nat | k < |fewer| ensures fewer[k] < |produced| && rest[k] == produced[fewer[k]] {
        WithoutAt(ids, p, k);
        WithoutAt(pairs, p, k);
      }
      SamePairs(produced, fewer, rest, n - 1);
      WithoutCount(pairs, p);
      assert produced[..n] == produced[..n - 1] + [produced[n - 1]];
    }
  }

  // Exactly once: when any worker is back from the second barrier, the tasks of the
  // reference walk have been queued in its order, each has been copied once and tallied
  // once, and the statistics are those of the whole tree.
  lemma ExactlyOnce(c: Config, run: seq<State>, ls: seq<Label>)
    requires IsRun(c, run, ls) && Released(run[|ls|])
    ensures var s, n := run[|ls|], |AllTasks(c)|;
      && s.hist.produced == AllTasks(c)
      && NoDup(s.hist.copied) && (forall k: nat :: k in s.hist.copied <==> k < n)
      && |s.hist.pairs| == |s.hist.copied| == n
      && (forall j: nat :: j < n ==> s.hist.copied[j] < n && s.hist.pairs[j] == AllTasks(c)[s.hist.copied[j]])
      && multiset(s.hist.pairs) == multiset(AllTasks(c))
      && s.stats.filesCopied == s.stats.regular == n && s.stats.fifo == 0
      && s.stats.bytes == TaskBytes(c, AllTasks(c))
  {
    var s := run[|ls|];
    RunSafe(c, run, ls, |ls|);
    ReleasedMeansAllOver(c, s, run[0].disk.files);
    AllTaken(c, s, run[0].disk.files);
    AllRecorded(c, s);
    CoverAll(c, s.hist.produced, s.hist.tallied, s.hist.taken);
    CoverAll(c, s.hist.produced, s.hist.copied, s.hist.taken);
    SamePairs(s.hist.produced, s.hist.copied, s.hist.pairs, s.hist.taken);
    assert s.hist.produced[..s.hist.taken] == s.hist.produced;
    NoSection(c, s);
  }

  lemma NoSection(c: Config, s: State)
    requires StatInv(c, s) && forall i: nat :: i < |s.ws| ==> Over(s.ws[i])
    ensures !AwaitsKind(s) && !AwaitsTotal(s)
  {
  }

  // The target mirrors the source: every regular file reached through readable
  // directories is on the target disk, at the same relative path, byte for byte.
  lemma TargetMirrorsSource(c: Config, run: seq<State>, ls: seq<Label>, rel: Rel, content: seq<byte>)
    requires IsRun(c, run, ls) && Released(run[|ls|])
    requires rel != [] && LeadsTo(c.tree, rel, File(content))
    ensures var target, files := Render(c.dstRoot, rel), run[|ls|].disk.files;
      target in files && files[target] == content
  {
    hide Next, Init, Inv, Released, TaskBytes, Visit, TasksOf, Content, LeadsTo;
    var s := run[|ls|];
    var t := Task(Render(c.srcRoot, rel), Render(c.dstRoot, rel));
    RunSafe(c, run, ls, |ls|);
    VisitComplete(c.srcRoot, c.dstRoot, c.tree, rel, content);
    var k: nat :| k < |AllTasks(c)| && AllTasks(c)[k] == t;
    ExactlyOnce(c, run, ls);
    assert k in s.hist.copied;
    CopyIsThere(c, s, run[0].disk.files, k);
    TreeIsGood(c, run, ls);
    SourceIs(c, rel, content);
  }

  lemma TreeIsGood(c: Config, run: seq<State>, ls: seq<Label>)
    requires IsRun(c, run, ls)
    ensures GoodConfig(c)
  {
    assert Init(c, run[0]);
  }

  lemma CopyIsThere(c: Config, s: State, files0: map<string, seq<byte>>, k: nat)
    requires Inv(c, s, files0) && k in s.hist.copied && k < |s.hist.produced|
    ensures var t := s.hist.produced[k]; t.dest in s.disk.files && s.disk.files[t.dest] == Content(c, t.src)
  {
    assert Mirrored(c, s, s.hist.produced[k]);
    hide Content;
  }

  lemma SourceIs(c: Config, rel: Rel, content: seq<byte>)
    requires GoodConfig(c) && rel != [] && LeadsTo(c.tree, rel, File(content))
    ensures Content(c, Render(c.srcRoot, rel)) == content
  {
    LeadsResolve(c.tree, rel, File(content));
    LookupRender(c.tree, c.srcRoot, rel);
  }

  // ... and so is every directory.
  lemma DirectoriesMirrored(c: Config, run: seq<State>, ls: seq<Label>, rel: Rel, m: Node)
    requires IsRun(c, run, ls) && Released(run[|ls|])
    requires LeadsTo(c.tree, rel, m) && m.Dir?
    ensures Render(c.dstRoot, rel) in run[|ls|].disk.dirs
  {
    var s := run[|ls|];
    RunSafe(c, run, ls, |ls|);
    ReleasedMeansAllOver(c, s, run[0].disk.files);
    AllProduced(c, s);
    hide Inv;
    VisitMakesDirs(c.srcRoot, c.dstRoot, c.tree, rel, m);
  }

  // In no state of any run has a file been touched that is not the target of a file of
  // the source.
  lemma OnlyTargetsWritten(c: Config, run: seq<State>, ls: seq<Label>, path: string)
    requires IsRun(c, run, ls)
    requires forall rel, content :: rel != [] && LeadsTo(c.tree, rel, File(content)) ==> path != Render(c.dstRoot, rel)
    ensures var before, after := run[0].disk.files, run[|ls|].disk.files;
      && (path in after <==> path in before)
      && (path in before ==> after[path] == before[path])
  {
    var s := run[|ls|];
    RunSafe(c, run, ls, |ls|);
    forall k | 0 <= k < s.hist.taken ensures s.hist.produced[k].dest != path {
      var t := AllTasks(c)[k];
      assert s.hist.produced[k] == t && t in AllTasks(c);
      var rel, content := TaskIsBelow(c, t);
    }
    assert Foreign(s, path);
  }

  // At no time do two workers hold files open for writing under the same name.
  lemma NoSharedTarget(c: Config, run: seq<State>, ls: seq<Label>, i: nat, j: nat)
    requires IsRun(c, run, ls) && i < j < |run[|ls|].ws|
    requires InCopy(run[|ls|].ws[i]) && InCopy(run[|ls|].ws[j])
    ensures run[|ls|].ws[i].job.task.dest != run[|ls|].ws[j].job.task.dest
  {
    var s := run[|ls|];
    RunSafe(c, run, ls, |ls|);
    Produced(c, s);
    OwnTask(s, i);
    OwnTask(s, j);
  }

  // The barrier is passed the first time only when every worker has arrived at it once,
  // and the second time only when every worker has arrived at it twice.
  lemma BarrierSeparates(c: Config, run: seq<State>, ls: seq<Label>, i: nat, j: nat)
    requires IsRun(c, run, ls) && i < |run[|ls|].ws| && j < |run[|ls|].ws|
    ensures var p, q := run[|ls|].ws[i], run[|ls|].ws[j];
      && (!p.Begin? && !p.Started? ==> !q.Begin?)
      && (p.Returned? ==> q == Ended(1) || q.Returned?)
  {
    RunSafe(c, run, ls, |ls|);
    var s := run[|ls|];
    assert BarrierInv(c, s) && PhaseOK(s.barrier.phase, s.ws[i]) && PhaseOK(s.barrier.phase, s.ws[j]);
    hide IsRun, Inv, BarrierInv;
  }

  // Tasks leave the ring in the order they entered it, in every state of every run.
  lemma RingIsQueue(c: Config, run: seq<State>, ls: seq<Label>)
    requires IsRun(c, run, ls)
    ensures var s := run[|ls|];
      && s.hist.taken <= |s.hist.produced|
      && R.Matches(s.slots, s.out, s.inn, s.hist.produced[s.hist.taken..])
      && 0 <= s.count <= c.cap
      && (s.lock == None ==> s.count == |s.hist.produced| - s.hist.taken)
  {
    RunSafe(c, run, ls, |ls|);
  }

  // In no state of any run do two threads stand at statements that write the ring.
  lemma OneWriter(c: Config, run: seq<State>, ls: seq<Label>, t: Tid, u: Tid)
    requires IsRun(c, run, ls) && Touches(run[|ls|], t) && Touches(run[|ls|], u)
    ensures t == u && run[|ls|].lock == Some(t)
  {
    RunSafe(c, run, ls, |ls|);
    hide IsRun;
    RingExclusive(c, run[|ls|], t, u);
  }

  // From the moment a worker is about to unlock for the second time, whoever holds the
  // mutex, nobody writes the ring again and it stays as it is: empty.
  lemma {:induction false} SecondUnlockIsHarmless(c: Config, run: seq<State>, ls: seq<Label>, k: nat, n: nat, i: nat)
    requires IsRun(c, run, ls) && k <= n <= |ls| && i < |run[k].ws| && run[k].ws[i].UnlockTwice?
    ensures var s, s' := run[k], run[n];
      && !s'.active && s'.count == s.count == 0 && s'.slots == s.slots && s'.inn == s.inn && s'.out == s.out
      && forall t :: !Touches(s', t)
    decreases n
  {
    hide Init, Next, Inv, LockInv, Touches;
    RunSafe(c, run, ls, if n == k then k else n - 1);
    LocksHold(c, run[if n == k then k else n - 1], run[0].disk.files);
    if n == k {
      DoubleUnlockHarmless(c, run[k], i);
      QuietUntouched(c, run[k]);
    } else {
      SecondUnlockIsHarmless(c, run, ls, k, n - 1, i);
      assert Next(c, run[n - 1], ls[n - 1], run[n - 1 + 1]);
      QuietForGood(c, run[n - 1], ls[n - 1], run[n]);
    }
  }

  lemma LocksHold(c: Config, s: State, files0: map<string, seq<byte>>)
    requires Inv(c, s, files0)
    ensures LockInv(c, s)
  {
  }

  lemma QuietUntouched(c: Config, s: State)
    requires LockInv(c, s) && Quiet(s)
    ensures forall t :: !Touches(s, t)
  {
    forall t ensures !Touches(s, t) {
      if t.Worker? && t.id < |s.ws| { assert WrkLock(s, t.id); }
    }
  }
}
