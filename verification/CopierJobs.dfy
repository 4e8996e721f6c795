// Exactly once: every task that left the ring is copied once and tallied once.
module CopierJobs {
  import opened Copier
  import opened CopierFrames
  import opened CopierLocks
  import opened CopierRing
  import opened CopierScript

  predicate HasJob(pc: WPc) {
    pc.DecCount? || pc.SignalFull? || pc.UnlockTaken? || InCopy(pc)
    || pc.StatLock? || pc.StatBytes? || pc.StatKind? || pc.StatTotal?
  }

  // Holds a task whose fileCopy has not finished.
  predicate Copying(pc: WPc) {
    pc.DecCount? || pc.SignalFull? || pc.UnlockTaken? || InCopy(pc)
  }

  // Holds a task that is not in the statistics yet.
  predicate Untallied(pc: WPc) {
    Copying(pc) || pc.StatLock? || pc.StatBytes?
  }

  predicate NoDup(ids: seq<nat>) {
    forall j, k :: 0 <= j < k < |ids| ==> ids[j] != ids[k]
  }

  predicate CopyingBy(s: State, k: nat) {
    exists i: nat :: i < |s.ws| && Copying(s.ws[i]) && s.ws[i].job.id == k
  }

  predicate UntalliedBy(s: State, k: nat) {
    exists i: nat :: i < |s.ws| && Untallied(s.ws[i]) && s.ws[i].job.id == k
  }

  // Worker i's task is the one its position says, and it is in `copied` and `tallied`
  // exactly as far as the worker has come.
  predicate WrkJob(s: State, i: nat)
    requires i < |s.ws|
  {
    HasJob(s.ws[i]) ==>
      var job := s.ws[i].job;
      && job.id < s.hist.taken <= |s.hist.produced| && job.task == s.hist.produced[job.id]
      && (Copying(s.ws[i]) <==> job.id !in s.hist.copied)
      && (Untallied(s.ws[i]) <==> job.id !in s.hist.tallied)
  }

  predicate Recorded(s: State, ids: seq<nat>) {
    NoDup(ids) && forall k :: k in ids ==> k < s.hist.taken
  }

  ghost predicate JobInv(s: State) {
    && (forall i: nat :: i < |s.ws| ==> WrkJob(s, i))
    && (forall i: nat, j: nat :: i < j < |s.ws| && HasJob(s.ws[i]) && HasJob(s.ws[j]) ==>
          s.ws[i].job.id != s.ws[j].job.id)
    && Recorded(s, s.hist.copied) && Recorded(s, s.hist.tallied)
    && (forall k: nat :: k < s.hist.taken ==> k in s.hist.copied || CopyingBy(s, k))
    && (forall k: nat :: k < s.hist.taken ==> k in s.hist.tallied || UntalliedBy(s, k))
  }

  lemma JobInit(c: Config, s: State)
    requires Init(c, s)
    ensures JobInv(s)
  {
  }

  predicate SameJob(p: WPc, q: WPc) {
    && (HasJob(p) <==> HasJob(q)) && (HasJob(p) ==> p.job == q.job)
    && (Copying(p) <==> Copying(q)) && (Untallied(p) <==> Untallied(q))
  }

  predicate SameRecords(s: State, s': State) {
    s'.hist.taken == s.hist.taken && s'.hist.copied == s.hist.copied && s'.hist.tallied == s.hist.tallied
  }

  // A step that neither starts nor completes anything.
  lemma JobFrame(s: State, s': State)
    requires JobInv(s) && SameRecords(s, s') && |s'.ws| == |s.ws|
    requires s.hist.produced <= s'.hist.produced
    requires forall i: nat :: i < |s.ws| ==> SameJob(s.ws[i], s'.ws[i])
    ensures JobInv(s')
  {
    hide NoDup;
    forall i: nat | i < |s'.ws| ensures WrkJob(s', i) {
      assert WrkJob(s, i) && SameJob(s.ws[i], s'.ws[i]);
    }
    forall i: nat, j: nat | i < j < |s'.ws| && HasJob(s'.ws[i]) && HasJob(s'.ws[j])
      ensures s'.ws[i].job.id != s'.ws[j].job.id
    {
      assert SameJob(s.ws[i], s'.ws[i]) && SameJob(s.ws[j], s'.ws[j]);
    }
    forall k: nat | k < s'.hist.taken
      ensures (k in s'.hist.copied || CopyingBy(s', k)) && (k in s'.hist.tallied || UntalliedBy(s', k))
    {
    }
  }

  lemma NoDupAppend(ids: seq<nat>, k: nat)
    requires NoDup(ids) && k !in ids
    ensures NoDup(ids + [k])
  {
  }

  // Worker i takes the next task.
  lemma JobStart(s: State, s': State, i: nat)
    requires JobInv(s) && Moves(s, s', i) && !HasJob(s.ws[i])
    requires s.hist.taken < |s.hist.produced| && s'.hist == s.hist.(taken := s.hist.taken + 1)
    requires s'.ws[i] == DecCount(Job(s.hist.taken, s.hist.produced[s.hist.taken]))
    ensures JobInv(s')
  {
    forall j: nat | j < |s'.ws| ensures WrkJob(s', j) {
      assert WrkJob(s, j);
    }
    forall k: nat | k < s'.hist.taken
      ensures k in s'.hist.copied || CopyingBy(s', k)
      ensures k in s'.hist.tallied || UntalliedBy(s', k)
    {
      if k == s.hist.taken {
        assert Copying(s'.ws[i]) && s'.ws[i].job.id == k;
      } else {
        Elsewhere(s, s', i, k);
      }
    }
    forall j: nat, k: nat | j < k < |s'.ws| && HasJob(s'.ws[j]) && HasJob(s'.ws[k])
      ensures s'.ws[j].job.id != s'.ws[k].job.id
    {
      assert WrkJob(s, j) && WrkJob(s, k);
    }
  }

  // A task held by another worker is still held.
  lemma Elsewhere(s: State, s': State, i: nat, k: nat)
    requires Moves(s, s', i)
    ensures CopyingBy(s, k) && !(Copying(s.ws[i]) && s.ws[i].job.id == k) ==> CopyingBy(s', k)
    ensures UntalliedBy(s, k) && !(Untallied(s.ws[i]) && s.ws[i].job.id == k) ==> UntalliedBy(s', k)
  {
    if CopyingBy(s, k) && !(Copying(s.ws[i]) && s.ws[i].job.id == k) {
      var j: nat :| j < |s.ws| && Copying(s.ws[j]) && s.ws[j].job.id == k;
      assert s'.ws[j] == s.ws[j];
    }
    if UntalliedBy(s, k) && !(Untallied(s.ws[i]) && s.ws[i].job.id == k) {
      var j: nat :| j < |s.ws| && Untallied(s.ws[j]) && s.ws[j].job.id == k;
      assert s'.ws[j] == s.ws[j];
    }
  }

  // Worker i has reached the end of the file.
  lemma JobCopied(s: State, s': State, i: nat)
    requires JobInv(s) && Moves(s, s', i) && Copying(s.ws[i])
    requires s'.ws[i] == StatLock(s.ws[i].job)
    requires s'.hist.copied == s.hist.copied + [s.ws[i].job.id] && s'.hist.tallied == s.hist.tallied
    requires s'.hist.taken == s.hist.taken && s'.hist.produced == s.hist.produced
    ensures JobInv(s')
  {
    var id := s.ws[i].job.id;
    assert WrkJob(s, i);
    NoDupAppend(s.hist.copied, id);
    hide NoDup;
    forall j: nat | j < |s'.ws| ensures WrkJob(s', j) {
      assert WrkJob(s, j);
    }
    forall k: nat | k < s'.hist.taken
      ensures k in s'.hist.copied || CopyingBy(s', k)
      ensures k in s'.hist.tallied || UntalliedBy(s', k)
    {
      Elsewhere(s, s', i, k);
      assert Untallied(s'.ws[i]) && s'.ws[i].job.id == id;
    }
  }

  // Worker i enters its task in the statistics.
  lemma JobTallied(s: State, s': State, i: nat)
    requires JobInv(s) && Moves(s, s', i) && s.ws[i].StatBytes?
    requires s'.ws[i] == StatKind(s.ws[i].job)
    requires s'.hist == s.hist.(tallied := s.hist.tallied + [s.ws[i].job.id])
    ensures JobInv(s')
  {
    assert WrkJob(s, i);
    NoDupAppend(s.hist.tallied, s.ws[i].job.id);
    hide NoDup;
    forall j: nat | j < |s'.ws| ensures WrkJob(s', j) {
      assert WrkJob(s, j);
    }
    forall k: nat | k < s'.hist.taken
      ensures k in s'.hist.copied || CopyingBy(s', k)
      ensures k in s'.hist.tallied || UntalliedBy(s', k)
    {
      Elsewhere(s, s', i, k);
    }
  }

  // Worker i drops a task it is done with.
  lemma JobDone(s: State, s': State, i: nat)
    requires JobInv(s) && Moves(s, s', i) && s'.hist == s.hist
    requires HasJob(s.ws[i]) && !Untallied(s.ws[i]) && !HasJob(s'.ws[i])
    ensures JobInv(s')
  {
    hide NoDup;
    assert WrkJob(s, i);
    forall j: nat | j < |s'.ws| ensures WrkJob(s', j) {
      assert WrkJob(s, j);
    }
    forall k: nat | k < s'.hist.taken
      ensures k in s'.hist.copied || CopyingBy(s', k)
      ensures k in s'.hist.tallied || UntalliedBy(s', k)
    {
      Elsewhere(s, s', i, k);
    }
  }

  lemma JobMgr(c: Config, s: State, pick: nat)
    requires JobInv(s) && Shape(c, s) && MgrCan(c, s, pick)
    ensures JobInv(MgrDo(c, s, pick))
  {
    MgrEffect(c, s, pick);
    hide MgrDo;
    JobFrame(s, MgrDo(c, s, pick));
  }

  lemma JobLoop(c: Config, s: State, i: nat)
    requires JobInv(s) && Shape(c, s) && i < |s.ws| && InLoop(s.ws[i])
    ensures JobInv(LoopDo(c, s, i))
  {
    LoopEffect(c, s, i);
    hide LoopDo;
    JobFrame(s, LoopDo(c, s, i));
  }

  lemma JobAdvance(c: Config, s: State, i: nat)
    requires RingInv(c, s) && JobInv(s) && i < |s.ws| && s.ws[i].AdvanceOut?
    ensures JobInv(RingDo(c, s, i))
  {
    var s' := RingDo(c, s, i);
    assert Queued(s)[0] == s.hist.produced[s.hist.taken];
    assert Moves(s, s', i);
    hide RingInv, RingDo, JobInv;
    JobStart(s, s', i);
  }

  lemma JobUnlock(c: Config, s: State, i: nat)
    requires ScriptInv(c, s) && JobInv(s) && i < |s.ws| && s.ws[i].UnlockTaken?
    ensures JobInv(RingDo(c, s, i))
  {
    Produced(c, s);
    OwnTask(s, i);
    hide ScriptInv, JobInv;
    var s' := RingDo(c, s, i);
    assert Moves(s, s', i) && s'.hist == s.hist && SameJob(s.ws[i], s'.ws[i]);
    hide RingDo;
    JobFrame(s, s');
  }

  lemma JobRing(c: Config, s: State, i: nat)
    requires JobInv(s) && Shape(c, s) && i < |s.ws| && InRing(s.ws[i]) && !s.ws[i].AdvanceOut? && !s.ws[i].UnlockTaken?
    ensures JobInv(RingDo(c, s, i))
  {
    hide JobInv;
    var s' := RingDo(c, s, i);
    RingEffect(c, s, i);
    assert s'.hist == s.hist && SameJob(s.ws[i], s'.ws[i]);
    hide RingDo;
    JobFrame(s, s');
  }

  lemma OwnTask(s: State, i: nat)
    requires JobInv(s) && i < |s.ws| && HasJob(s.ws[i])
    ensures s.ws[i].job.id < s.hist.taken <= |s.hist.produced| && s.ws[i].job.task == s.hist.produced[s.ws[i].job.id]
  {
    assert WrkJob(s, i);
  }

  lemma JobCopy(c: Config, s: State, i: nat, pick: nat)
    requires ScriptInv(c, s) && JobInv(s) && i < |s.ws| && InCopy(s.ws[i]) && WrkCan(c, s, i, pick)
    ensures JobInv(CopyDo(c, s, i, pick))
  {
    var s' := CopyDo(c, s, i, pick);
    CopyEffect(c, s, i, pick);
    Produced(c, s);
    OwnTask(s, i);
    hide JobInv, ScriptInv, Content, At;
    if s'.ws[i].StatLock? {
      JobCopied(s, s', i);
    } else {
      assert SameRecords(s, s') && SameJob(s.ws[i], s'.ws[i]) && s'.hist.produced == s.hist.produced;
      hide CopyDo;
      JobFrame(s, s');
    }
  }

  lemma JobStats(c: Config, s: State, i: nat)
    requires JobInv(s) && Shape(c, s) && i < |s.ws| && InStats(s.ws[i])
    ensures JobInv(StatsDo(c, s, i))
  {
    var s' := StatsDo(c, s, i);
    StatsEffect(c, s, i);
    hide JobInv, Content, At;
    if s.ws[i].StatBytes? {
      JobTallied(s, s', i);
    } else if s.ws[i].StatTotal? {
      JobDone(s, s', i);
    } else {
      assert SameRecords(s, s') && SameJob(s.ws[i], s'.ws[i]);
      hide StatsDo;
      JobFrame(s, s');
    }
  }

  lemma JobWrk(c: Config, s: State, i: nat, pick: nat)
    requires LockInv(c, s) && RingInv(c, s) && ScriptInv(c, s) && JobInv(s) && WrkCan(c, s, i, pick)
    ensures JobInv(WrkDo(c, s, i, pick))
  {
    var pc := s.ws[i];
    assert Shape(c, s);
    hide LoopDo, RingDo, CopyDo, StatsDo, LockInv, RingInv, ScriptInv, JobInv;
    if InLoop(pc) { JobLoop(c, s, i); }
    else if pc.AdvanceOut? { JobAdvance(c, s, i); }
    else if pc.UnlockTaken? { JobUnlock(c, s, i); }
    else if InRing(pc) { JobRing(c, s, i); }
    else if InCopy(pc) { JobCopy(c, s, i, pick); }
    else { JobStats(c, s, i); }
  }

  lemma JobStep(c: Config, s: State, l: Label, s': State)
    requires LockInv(c, s) && RingInv(c, s) && ScriptInv(c, s) && JobInv(s) && Next(c, s, l, s')
    ensures JobInv(s')
  {
    hide MgrDo, WrkDo, LockInv, RingInv, ScriptInv, JobInv;
    match l
    case Mgr(pick) => JobMgr(c, s, pick);
    case Wrk(i, pick) => JobWrk(c, s, i, pick);
    case _ => JobFrame(s, s');
  }

  // ---------------------------------------------------------------- which pairs

  // The k-th completed call has copied the pair at the position it has recorded.
  ghost predicate PairInv(s: State) {
    && |s.hist.pairs| == |s.hist.copied|
    && forall k: nat :: k < |s.hist.copied| ==>
      s.hist.copied[k] < |s.hist.produced| && s.hist.pairs[k] == s.hist.produced[s.hist.copied[k]]
  }

  lemma PairFrame(s: State, s': State)
    requires PairInv(s) && s.hist.produced <= s'.hist.produced
    requires s'.hist.copied == s.hist.copied && s'.hist.pairs == s.hist.pairs
    ensures PairInv(s')
  {
  }

  lemma PairCopy(c: Config, s: State, i: nat, pick: nat)
    requires JobInv(s) && PairInv(s) && Shape(c, s) && i < |s.ws| && InCopy(s.ws[i]) && WrkCan(c, s, i, pick)
    ensures PairInv(CopyDo(c, s, i, pick))
  {
    OwnTask(s, i);
    hide JobInv, Content, At;
  }

  lemma PairStep(c: Config, s: State, l: Label, s': State)
    requires JobInv(s) && PairInv(s) && Next(c, s, l, s')
    ensures PairInv(s')
  {
    hide JobInv, PairInv, MgrDo, LoopDo, RingDo, CopyDo, StatsDo;
    match l
    case Mgr(pick) =>
      MgrEffect(c, s, pick);
      PairFrame(s, s');
    case Wrk(i, pick) =>
      if InLoop(s.ws[i]) {
        LoopEffect(c, s, i);
        PairFrame(s, s');
      } else if InRing(s.ws[i]) {
        RingEffect(c, s, i);
        PairFrame(s, s');
      } else if InCopy(s.ws[i]) {
        PairCopy(c, s, i, pick);
      } else {
        StatsEffect(c, s, i);
        PairFrame(s, s');
      }
    case _ => PairFrame(s, s');
  }
}
