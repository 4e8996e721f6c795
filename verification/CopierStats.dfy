// The statistics: under their own mutex, and equal to what has been tallied.
module CopierStats {
  import opened SourceTree
  import opened Walk
  import opened Copier
  import opened CopierFrames
  import opened CopierScript
  import opened CopierJobs

  predicate InSection(pc: WPc) {
    pc.StatBytes? || pc.StatKind? || pc.StatTotal? || pc.StatUnlock?
  }

  ghost function SizeOf(c: Config, produced: seq<Task>, id: nat): nat {
    if id < |produced| then |Content(c, produced[id].src)| else 0
  }

  ghost function TotalSize(c: Config, produced: seq<Task>, ids: seq<nat>): nat {
    if ids == [] then 0
    else TotalSize(c, produced, ids[..|ids| - 1]) + SizeOf(c, produced, ids[|ids| - 1])
  }

  // Tallied by the holder of the mutex and not yet counted.
  predicate AwaitsKind(s: State) {
    s.statLock.Some? && s.statLock.value < |s.ws| && s.ws[s.statLock.value].StatKind?
  }

  predicate AwaitsTotal(s: State) {
    s.statLock.Some? && s.statLock.value < |s.ws| &&
    (s.ws[s.statLock.value].StatKind? || s.ws[s.statLock.value].StatTotal?)
  }

  ghost predicate StatInv(c: Config, s: State) {
    && (s.statLock.Some? ==> s.statLock.value < |s.ws|)
    && (forall i: nat {:trigger s.ws[i]} :: i < |s.ws| ==> (InSection(s.ws[i]) <==> s.statLock == Some(i)))
    && s.stats.fifo == 0
    && s.stats.regular == |s.hist.tallied| - (if AwaitsKind(s) then 1 else 0)
    && s.stats.filesCopied == |s.hist.tallied| - (if AwaitsTotal(s) then 1 else 0)
    && s.stats.bytes == TotalSize(c, s.hist.produced, s.hist.tallied)
  }

  lemma StatInit(c: Config, s: State)
    requires Init(c, s)
    ensures StatInv(c, s)
  {
  }

  // Tasks queued later do not change the size of what is tallied.
  lemma {:induction false} TotalSizeGrows(c: Config, produced: seq<Task>, more: seq<Task>, ids: seq<nat>)
    requires produced <= more && forall j :: 0 <= j < |ids| ==> ids[j] < |produced|
    ensures TotalSize(c, produced, ids) == TotalSize(c, more, ids)
  {
    hide Content;
    if ids == [] {
    } else {
      TotalSizeGrows(c, produced, more, ids[..|ids| - 1]);
    }
  }

  lemma StatFrame(c: Config, s: State, s': State)
    requires StatInv(c, s) && SameStatsBut(s, s') && |s'.ws| == |s.ws|
    requires s.hist.produced <= s'.hist.produced && TalliedIn(s)
    requires forall i: nat :: i < |s.ws| ==> s'.ws[i] == s.ws[i] || (!InSection(s.ws[i]) && !InSection(s'.ws[i]))
    ensures StatInv(c, s')
  {
    TotalSizeGrows(c, s.hist.produced, s'.hist.produced, s.hist.tallied);
    hide TotalSize;
    assert s.statLock.Some? ==> InSection(s.ws[s.statLock.value]);
  }

  // The manager counts directories; nobody else touches the rest.
  predicate SameStatsBut(s: State, s': State) {
    s'.statLock == s.statLock && s'.hist.tallied == s.hist.tallied
    && s'.stats == s.stats.(directories := s'.stats.directories)
  }

  predicate TalliedIn(s: State) {
    forall j :: 0 <= j < |s.hist.tallied| ==> s.hist.tallied[j] < |s.hist.produced|
  }

  lemma TalliedProduced(s: State)
    requires JobInv(s) && s.hist.taken <= |s.hist.produced|
    ensures TalliedIn(s)
  {
    forall j | 0 <= j < |s.hist.tallied| ensures s.hist.tallied[j] < |s.hist.produced| {
      assert s.hist.tallied[j] in s.hist.tallied;
    }
  }

  // A worker that stays outside the section.
  lemma StatOutside(c: Config, s: State, s': State, i: nat)
    requires StatInv(c, s) && Moves(s, s', i) && SameStats(s, s') && s'.hist.produced == s.hist.produced
    requires !InSection(s.ws[i]) && !InSection(s'.ws[i])
    ensures StatInv(c, s')
  {
    hide TotalSize;
  }

  lemma StatTally(c: Config, s: State, i: nat)
    requires Shape(c, s) && JobInv(s) && StatInv(c, s)
    requires i < |s.ws| && s.ws[i].StatBytes?
    ensures StatInv(c, StatsDo(c, s, i))
  {
    OwnTask(s, i);
    hide JobInv, Content, At;
    var s' := StatsDo(c, s, i);
    assert s'.hist.tallied[..|s.hist.tallied|] == s.hist.tallied;
    StatMoves(c, s, s', i);
  }

  lemma StatKinds(c: Config, s: State, i: nat)
    requires ScriptInv(c, s) && JobInv(s) && StatInv(c, s)
    requires i < |s.ws| && s.ws[i].StatKind?
    ensures StatInv(c, StatsDo(c, s, i))
  {
    Produced(c, s);
    OwnTask(s, i);
    hide ScriptInv, JobInv, At;
    var s' := StatsDo(c, s, i);
    assert IsFile(c, s.ws[i].job.task.src);
    assert s'.hist == s.hist && Moves(s, s', i) && StatCounts(s, s', i);
    hide StatsDo;
    StatMoves(c, s, s', i);
  }

  lemma StatRest(c: Config, s: State, i: nat)
    requires Shape(c, s) && StatInv(c, s)
    requires i < |s.ws| && InStats(s.ws[i]) && !s.ws[i].StatBytes? && !s.ws[i].StatKind? && WrkCan(c, s, i, 0)
    ensures StatInv(c, StatsDo(c, s, i))
  {
    hide Content, At;
    var s' := StatsDo(c, s, i);
    assert s'.hist == s.hist && s'.stats.bytes == s.stats.bytes && Moves(s, s', i) && StatCounts(s, s', i);
    hide StatsDo;
    StatMoves(c, s, s', i);
  }

  predicate StatCounts(s: State, s': State, i: nat)
    requires i < |s.ws| == |s'.ws|
  {
    match s.ws[i]
    case StatLock(job) =>
      s.statLock == None && s'.statLock == Some(i) && s'.ws[i] == StatBytes(job) && s'.stats == s.stats
    case StatBytes(job) =>
      s'.statLock == s.statLock && s'.ws[i] == StatKind(job) && s'.stats == s.stats.(bytes := s'.stats.bytes)
    case StatKind(job) =>
      s'.statLock == s.statLock && s'.ws[i] == StatTotal(job) && s'.stats == s.stats.(regular := s.stats.regular + 1)
    case StatTotal(_) =>
      && s'.statLock == s.statLock && s'.ws[i] == StatUnlock
      && s'.stats == s.stats.(filesCopied := s.stats.filesCopied + 1)
    case StatUnlock => s'.statLock == None && s'.ws[i] == LoopActive && s'.stats == s.stats
    case _ => false
  }

  lemma StatMoves(c: Config, s: State, s': State, i: nat)
    requires StatInv(c, s) && Moves(s, s', i) && StatCounts(s, s', i)
    requires |s'.hist.tallied| == |s.hist.tallied| + (if s.ws[i].StatBytes? then 1 else 0)
    requires s'.stats.bytes == TotalSize(c, s'.hist.produced, s'.hist.tallied)
    ensures StatInv(c, s')
  {
    hide TotalSize;
    assert InSection(s.ws[i]) ==> s.statLock == Some(i);
  }

  lemma StatElsewhere(c: Config, s: State, i: nat, pick: nat)
    requires Shape(c, s) && StatInv(c, s) && WrkCan(c, s, i, pick) && !InStats(s.ws[i])
    ensures StatInv(c, WrkDo(c, s, i, pick))
  {
    hide StatInv, LoopDo, RingDo, CopyDo, StatsDo;
    if InLoop(s.ws[i]) {
      LoopEffect(c, s, i);
      StatOutside(c, s, LoopDo(c, s, i), i);
    } else if InRing(s.ws[i]) {
      RingEffect(c, s, i);
      StatOutside(c, s, RingDo(c, s, i), i);
    } else {
      CopyEffect(c, s, i, pick);
      StatOutside(c, s, CopyDo(c, s, i, pick), i);
    }
  }

  lemma StatsAre(c: Config, s: State, i: nat, pick: nat)
    requires ScriptInv(c, s) && WrkCan(c, s, i, pick) && InStats(s.ws[i])
    ensures WrkCan(c, s, i, 0) && WrkDo(c, s, i, pick) == StatsDo(c, s, i)
  {
    assert Shape(c, s);
    hide ScriptInv, LoopDo, RingDo, CopyDo, StatsDo;
  }

  lemma StatInside(c: Config, s: State, i: nat, pick: nat)
    requires ScriptInv(c, s) && JobInv(s) && StatInv(c, s) && WrkCan(c, s, i, pick) && InStats(s.ws[i])
    ensures StatInv(c, WrkDo(c, s, i, pick))
  {
    StatsAre(c, s, i, pick);
    hide *;
    if s.ws[i].StatBytes? { StatTally(c, s, i); }
    else if s.ws[i].StatKind? { StatKinds(c, s, i); }
    else { StatRest(c, s, i); }
  }

  lemma StatWrk(c: Config, s: State, i: nat, pick: nat)
    requires ScriptInv(c, s) && JobInv(s) && StatInv(c, s) && Shape(c, s) && WrkCan(c, s, i, pick)
    ensures StatInv(c, WrkDo(c, s, i, pick))
  {
    hide ScriptInv, JobInv, StatInv, WrkDo, GoodConfig;
    if InStats(s.ws[i]) { StatInside(c, s, i, pick); } else { StatElsewhere(c, s, i, pick); }
  }

  lemma StatStep(c: Config, s: State, l: Label, s': State)
    requires ScriptInv(c, s) && JobInv(s) && s.hist.taken <= |s.hist.produced| && StatInv(c, s) && Next(c, s, l, s')
    ensures StatInv(c, s')
  {
    hide ScriptInv, JobInv, StatInv, MgrDo, WrkDo, TalliedIn, GoodConfig;
    TalliedProduced(s);
    match l
    case Mgr(pick) =>
      MgrEffect(c, s, pick);
      StatFrame(c, s, s');
    case Wrk(i, pick) => StatWrk(c, s, i, pick);
    case SpuriousMgr => StatFrame(c, s, s');
    case SpuriousWrk(i) => StatOutside(c, s, s', i);
  }
}
