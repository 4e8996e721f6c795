// What the chunk-by-chunk copies leave on the target disk.
module CopierFiles {
  import opened SourceTree
  import opened Walk
  import opened Copier
  import opened CopierFrames
  import opened CopierRing
  import opened CopierScript
  import opened CopierJobs
  import R = Ring

  // The target starts with the first n bytes of the source and has no more.
  ghost predicate Holds(c: Config, s: State, t: Task, n: nat) {
    n <= |Content(c, t.src)| && t.dest in s.disk.files && s.disk.files[t.dest] == Content(c, t.src)[..n]
  }

  ghost predicate WrkFile(c: Config, s: State, i: nat)
    requires i < |s.ws|
  {
    match s.ws[i]
    case ReadChunk(job, off) => Holds(c, s, job.task, off)
    case WriteChunk(job, off, chunk) =>
      && Holds(c, s, job.task, off)
      && off + |chunk| <= |Content(c, job.task.src)| && 1 <= |chunk|
      && chunk == Content(c, job.task.src)[off..off + |chunk|]
    case _ => true
  }

  ghost predicate Mirrored(c: Config, s: State, t: Task) {
    t.dest in s.disk.files && s.disk.files[t.dest] == Content(c, t.src)
  }

  // No taken task writes this path.
  predicate Foreign(s: State, path: string)
    requires s.hist.taken <= |s.hist.produced|
  {
    forall k :: 0 <= k < s.hist.taken ==> s.hist.produced[k].dest != path
  }

  // The file system has at p what it had at the start.
  predicate AsBefore(s: State, files0: map<string, seq<byte>>, p: string) {
    (p in s.disk.files <==> p in files0) && (p in files0 ==> s.disk.files[p] == files0[p])
  }

  ghost predicate FileInv(c: Config, s: State, files0: map<string, seq<byte>>) {
    && s.hist.taken <= |s.hist.produced|
    && (forall i: nat :: i < |s.ws| ==> WrkFile(c, s, i))
    && (forall k :: k in s.hist.copied ==> k < |s.hist.produced| && Mirrored(c, s, s.hist.produced[k]))
    && (forall p :: Foreign(s, p) ==> AsBefore(s, files0, p))
  }

  lemma FileInit(c: Config, s: State)
    requires Init(c, s)
    ensures FileInv(c, s, s.disk.files)
  {
  }

  // Steps that write no file.
  lemma FileFrame(c: Config, s: State, s': State, files0: map<string, seq<byte>>)
    requires FileInv(c, s, files0) && |s'.ws| == |s.ws|
    requires s'.disk.files == s.disk.files && s'.hist.copied == s.hist.copied
    requires s.hist.produced <= s'.hist.produced && s.hist.taken <= s'.hist.taken <= |s'.hist.produced|
    requires forall i: nat :: i < |s.ws| ==> s'.ws[i] == s.ws[i] || !(s'.ws[i].ReadChunk? || s'.ws[i].WriteChunk?)
    ensures FileInv(c, s', files0)
  {
    hide Content;
    forall i: nat | i < |s'.ws| ensures WrkFile(c, s', i) {
      assert WrkFile(c, s, i);
    }
    forall p | Foreign(s', p) ensures Foreign(s, p) {
      forall k | 0 <= k < s.hist.taken ensures s.hist.produced[k].dest != p {
        assert s'.hist.produced[k].dest != p;
      }
    }
  }

  // Worker i writes the target of its own task.
  ghost predicate Writes(c: Config, s: State, s': State, i: nat) {
    && i < |s.ws| && Moves(s, s', i) && s'.hist == s.hist && Copying(s.ws[i])
    && s'.disk.files.Keys == s.disk.files.Keys + {s.ws[i].job.task.dest}
    && forall p :: p in s.disk.files && p != s.ws[i].job.task.dest ==> s'.disk.files[p] == s.disk.files[p]
  }

  lemma OtherFiles(c: Config, s: State, s': State, i: nat, j: nat)
    requires JobInv(s) && Copyable(c, s) && Writes(c, s, s', i)
    requires j < |s.ws| && j != i && WrkFile(c, s, j)
    ensures WrkFile(c, s', j)
  {
    if HasJob(s.ws[j]) {
      OwnTask(s, i);
      OwnTask(s, j);
      assert s.ws[j].job.id != s.ws[i].job.id;
    }
    hide JobInv, Content, CopyingBy, UntalliedBy;
  }

  lemma CopiedStays(c: Config, s: State, s': State, i: nat, k: nat)
    requires JobInv(s) && Copyable(c, s) && Writes(c, s, s', i)
    requires k in s.hist.copied && k < |s.hist.produced| && Mirrored(c, s, s.hist.produced[k])
    ensures Mirrored(c, s', s'.hist.produced[k])
  {
    OwnTask(s, i);
    assert s.ws[i].job.id !in s.hist.copied by { assert WrkJob(s, i); }
    hide JobInv, Content, CopyingBy, UntalliedBy;
  }

  lemma ForeignStays(c: Config, s: State, s': State, i: nat, files0: map<string, seq<byte>>, p: string)
    requires JobInv(s) && FileInv(c, s, files0) && Writes(c, s, s', i) && Foreign(s', p)
    ensures AsBefore(s', files0, p)
  {
    OwnTask(s, i);
    assert s'.hist.produced[s.ws[i].job.id].dest == s.ws[i].job.task.dest;
    assert Foreign(s, p);
    hide JobInv, Content, WrkFile, Mirrored;
  }

  lemma FileWrite(c: Config, s: State, s': State, i: nat, files0: map<string, seq<byte>>)
    requires JobInv(s) && FileInv(c, s, files0) && Copyable(c, s) && Writes(c, s, s', i)
    requires WrkFile(c, s', i)
    ensures FileInv(c, s', files0)
  {
    assert s'.hist == s.hist && |s'.ws| == |s.ws|;
    hide JobInv, Copyable, Mirrored, WrkFile, Writes, Foreign;
    forall k | k in s'.hist.copied ensures k < |s'.hist.produced| && Mirrored(c, s', s'.hist.produced[k]) {
      CopiedStays(c, s, s', i, k);
    }
    forall j: nat | j < |s'.ws| ensures WrkFile(c, s', j) {
      assert WrkFile(c, s, j);
      if j != i { OtherFiles(c, s, s', i, j); }
    }
    forall p | Foreign(s', p) ensures AsBefore(s', files0, p) {
      ForeignStays(c, s, s', i, files0, p);
    }
  }

  lemma FileOpen(c: Config, s: State, i: nat, files0: map<string, seq<byte>>)
    requires ScriptInv(c, s) && JobInv(s) && FileInv(c, s, files0)
    requires i < |s.ws| && s.ws[i].OpenTarget?
    ensures FileInv(c, CopyDo(c, s, i, 0), files0)
  {
    Produced(c, s);
    OwnTask(s, i);
    hide ScriptInv, JobInv, Content, At;
    var s' := CopyDo(c, s, i, 0);
    assert Content(c, s.ws[i].job.task.src)[..0] == [];
    FileWrite(c, s, s', i, files0);
  }

  lemma ChunkOwn(c: Config, s: State, i: nat)
    requires Shape(c, s) && i < |s.ws| && s.ws[i].WriteChunk? && WrkFile(c, s, i)
    ensures WrkFile(c, CopyDo(c, s, i, 0), i) && Writes(c, s, CopyDo(c, s, i, 0), i)
  {
    ChunkAppends(Content(c, s.ws[i].job.task.src), s.ws[i].off, s.ws[i].chunk);
    hide Content, WriteAt;
  }

  lemma FileChunk(c: Config, s: State, i: nat, files0: map<string, seq<byte>>)
    requires ScriptInv(c, s) && JobInv(s) && FileInv(c, s, files0)
    requires i < |s.ws| && s.ws[i].WriteChunk?
    ensures FileInv(c, CopyDo(c, s, i, 0), files0)
  {
    Produced(c, s);
    assert Shape(c, s) && WrkFile(c, s, i);
    ChunkOwn(c, s, i);
    hide *;
    FileWrite(c, s, CopyDo(c, s, i, 0), i, files0);
  }

  predicate Completes(s: State, s': State, i: nat)
    requires i < |s.ws| && HasJob(s.ws[i])
  {
    var job := s.ws[i].job;
    s'.hist == s.hist.(copied := s.hist.copied + [job.id], pairs := s.hist.pairs + [job.task])
  }

  // Worker i reads a chunk, or finds the end of the file.
  lemma FileMoved(c: Config, s: State, s': State, i: nat, files0: map<string, seq<byte>>)
    requires JobInv(s) && FileInv(c, s, files0)
    requires Moves(s, s', i) && s'.disk == s.disk && HasJob(s.ws[i]) && WrkFile(c, s', i)
    requires s'.hist == s.hist ||
      (Completes(s, s', i) && Mirrored(c, s, s.ws[i].job.task))
    ensures FileInv(c, s', files0)
  {
    OwnTask(s, i);
    hide Content, JobInv;
    forall j: nat | j < |s'.ws| ensures WrkFile(c, s', j) {
      assert WrkFile(c, s, j);
    }
    forall p | Foreign(s', p) ensures Foreign(s, p) {
    }
  }

  lemma ReadOwn(c: Config, s: State, i: nat, pick: nat)
    requires Shape(c, s) && i < |s.ws| && s.ws[i].ReadChunk? && WrkFile(c, s, i) && WrkCan(c, s, i, pick)
    ensures WrkFile(c, CopyDo(c, s, i, pick), i)
  {
    hide Content, At;
  }

  lemma ReadFrame(c: Config, s: State, i: nat, pick: nat)
    requires Shape(c, s) && i < |s.ws| && s.ws[i].ReadChunk? && WrkFile(c, s, i) && WrkCan(c, s, i, pick)
    ensures var s', job := CopyDo(c, s, i, pick), s.ws[i].job;
      Moves(s, s', i) && s'.disk == s.disk
      && (s'.hist == s.hist
          || (Completes(s, s', i) && Mirrored(c, s, job.task)))
  {
    var content := Content(c, s.ws[i].job.task.src);
    assert content[..|content|] == content;
    hide Content, At;
  }

  lemma FileRead(c: Config, s: State, i: nat, pick: nat, files0: map<string, seq<byte>>)
    requires JobInv(s) && FileInv(c, s, files0) && Shape(c, s)
    requires i < |s.ws| && s.ws[i].ReadChunk? && WrkCan(c, s, i, pick)
    ensures FileInv(c, CopyDo(c, s, i, pick), files0)
  {
    assert WrkFile(c, s, i);
    assert s.hist.taken <= |s.hist.produced|;
    hide Content, JobInv, FileInv, At;
    ReadOwn(c, s, i, pick);
    ReadFrame(c, s, i, pick);
    hide *;
    FileMoved(c, s, CopyDo(c, s, i, pick), i, files0);
  }

  lemma FileRing(c: Config, s: State, i: nat, files0: map<string, seq<byte>>)
    requires RingInv(c, s) && FileInv(c, s, files0) && i < |s.ws| && InRing(s.ws[i])
    ensures FileInv(c, RingDo(c, s, i), files0)
  {
    hide FileInv, R.Matches;
    var s' := RingDo(c, s, i);
    RingEffect(c, s, i);
    assert s.hist.taken <= s'.hist.taken <= |s'.hist.produced|;
    hide RingDo, RingInv;
    FileFrame(c, s, s', files0);
  }

  lemma FileWrk(c: Config, s: State, i: nat, pick: nat, files0: map<string, seq<byte>>)
    requires RingInv(c, s) && ScriptInv(c, s) && JobInv(s) && FileInv(c, s, files0)
    requires WrkCan(c, s, i, pick)
    ensures FileInv(c, WrkDo(c, s, i, pick), files0)
  {
    var pc := s.ws[i];
    assert Shape(c, s) && s.hist.taken <= |s.hist.produced|;
    hide ScriptInv, JobInv, FileInv, RingInv, LoopDo, RingDo, CopyDo, StatsDo;
    if InLoop(pc) {
      LoopEffect(c, s, i);
      FileFrame(c, s, LoopDo(c, s, i), files0);
    } else if InRing(pc) {
      FileRing(c, s, i, files0);
    } else if InStats(pc) {
      StatsEffect(c, s, i);
      FileFrame(c, s, StatsDo(c, s, i), files0);
    } else {
      FileCopyStep(c, s, i, pick, files0);
    }
  }

  lemma FileCopyStep(c: Config, s: State, i: nat, pick: nat, files0: map<string, seq<byte>>)
    requires Shape(c, s) && ScriptInv(c, s) && JobInv(s) && FileInv(c, s, files0)
    requires WrkCan(c, s, i, pick) && InCopy(s.ws[i])
    ensures FileInv(c, CopyDo(c, s, i, pick), files0)
  {
    if s.ws[i].OpenTarget? {
      assert CopyDo(c, s, i, pick) == CopyDo(c, s, i, 0) by { hide Content, At; }
      hide *;
      FileOpen(c, s, i, files0);
    } else if s.ws[i].WriteChunk? {
      assert CopyDo(c, s, i, pick) == CopyDo(c, s, i, 0) by { hide Content, At, WriteAt; }
      hide *;
      FileChunk(c, s, i, files0);
    } else if s.ws[i].ReadChunk? {
      hide *;
      FileRead(c, s, i, pick, files0);
    } else {
      CopyEffect(c, s, i, pick);
      var s' := CopyDo(c, s, i, pick);
      assert s'.disk == s.disk && s'.hist == s.hist && !s'.ws[i].ReadChunk? && !s'.ws[i].WriteChunk?;
      assert s.hist.taken <= |s.hist.produced|;
      hide CopyDo, FileInv, ScriptInv, JobInv;
      FileFrame(c, s, s', files0);
    }
  }

  lemma FileStep(c: Config, s: State, l: Label, s': State, files0: map<string, seq<byte>>)
    requires RingInv(c, s) && ScriptInv(c, s) && JobInv(s) && FileInv(c, s, files0) && Next(c, s, l, s')
    ensures FileInv(c, s', files0)
  {
    assert s.hist.taken <= |s.hist.produced|;
    hide MgrDo, WrkDo, RingInv, ScriptInv, JobInv, FileInv;
    match l
    case Mgr(pick) =>
      MgrEffect(c, s, pick);
      FileFrame(c, s, s', files0);
    case Wrk(i, pick) => FileWrk(c, s, i, pick, files0);
    case _ => FileFrame(c, s, s', files0);
  }
}
