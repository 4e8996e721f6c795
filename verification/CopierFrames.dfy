// What each group of worker steps can change.
module CopierFrames {
  import opened Walk
  import opened Copier

  // Only worker i moved, from s to s'.
  predicate Moves(s: State, s': State, i: nat) {
    i < |s.ws| && |s'.ws| == |s.ws| && s'.ws == s.ws[i := s'.ws[i]]
  }

  // The ring, its lock and the manager are as they were.
  predicate SameRing(s: State, s': State) {
    && s'.slots == s.slots && s'.inn == s.inn && s'.out == s.out && s'.count == s.count
    && s'.lock == s.lock && s'.active == s.active && s'.mgr == s.mgr && s'.walk == s.walk
    && s'.hist.produced == s.hist.produced && s'.hist.taken == s.hist.taken
    && s'.hist.committed == s.hist.committed
  }

  predicate SameFiles(s: State, s': State) {
    s'.disk == s.disk && s'.hist.copied == s.hist.copied && s'.hist.pairs == s.hist.pairs
  }

  predicate SameStats(s: State, s': State) {
    s'.stats == s.stats && s'.statLock == s.statLock && s'.hist.tallied == s.hist.tallied
  }

  lemma LoopEffect(c: Config, s: State, i: nat)
    requires Shape(c, s) && i < |s.ws| && InLoop(s.ws[i])
    ensures var s' := LoopDo(c, s, i);
      && Moves(s, s', i) && SameRing(s, s') && SameFiles(s, s') && SameStats(s, s')
      && (s'.ws[i].Lock? || s'.ws[i].Returned? || InLoop(s'.ws[i]))
  {
  }

  lemma CopyEffect(c: Config, s: State, i: nat, pick: nat)
    requires Shape(c, s) && i < |s.ws| && InCopy(s.ws[i]) && WrkCan(c, s, i, pick)
    ensures var s' := CopyDo(c, s, i, pick);
      && Moves(s, s', i) && SameRing(s, s') && SameStats(s, s') && s'.barrier == s.barrier
      && s'.disk.dirs == s.disk.dirs
      && (s'.ws[i].StatLock? || InCopy(s'.ws[i]))
  {
  }

  lemma StatsEffect(c: Config, s: State, i: nat)
    requires Shape(c, s) && i < |s.ws| && InStats(s.ws[i])
    ensures var s' := StatsDo(c, s, i);
      && Moves(s, s', i) && SameRing(s, s') && SameFiles(s, s') && s'.barrier == s.barrier
      && (s'.ws[i].LoopActive? || InStats(s'.ws[i]))
  {
  }

  lemma RingEffect(c: Config, s: State, i: nat)
    requires Shape(c, s) && i < |s.ws| && InRing(s.ws[i])
    ensures var s' := RingDo(c, s, i);
      && Moves(s, s', i) && SameFiles(s, s') && SameStats(s, s') && s'.barrier == s.barrier
      && s'.active == s.active && s'.walk == s.walk
      && s'.slots == s.slots && s'.inn == s.inn && s'.hist.produced == s.hist.produced
      && s'.hist.committed == s.hist.committed
      && (InRing(s'.ws[i]) || s'.ws[i].Asleep? || s'.ws[i].OpenSource? || s'.ws[i].LoopActive?)
  {
  }

  // The manager leaves the workers' business alone; at most it wakes sleepers.
  predicate OnlyWakes(s: State, s': State) {
    |s'.ws| == |s.ws| &&
    forall i: nat :: i < |s.ws| ==> s'.ws[i] == s.ws[i] || (s.ws[i] == Asleep && s'.ws[i] == Relock)
  }

  predicate MgrKeeps(s: State, s': State) {
    && OnlyWakes(s, s')
    && s'.barrier == s.barrier && s'.statLock == s.statLock && s'.disk.files == s.disk.files
    && s'.out == s.out && s.hist.produced <= s'.hist.produced
    && s'.hist.taken == s.hist.taken && s'.hist.copied == s.hist.copied && s'.hist.pairs == s.hist.pairs
    && s'.hist.tallied == s.hist.tallied
    && s'.stats == s.stats.(directories := s'.stats.directories)
  }

  lemma WalkKeeps(c: Config, s: State)
    requires Shape(c, s) && s.mgr == Walking
    ensures MgrKeeps(s, WalkDo(c, s))
  {
    hide Advance;
  }

  lemma PutKeeps(c: Config, s: State, pick: nat)
    requires Shape(c, s) && s.mgr != Walking && MgrCan(c, s, pick)
    ensures MgrKeeps(s, PutDo(c, s, pick))
  {
  }

  lemma MgrEffect(c: Config, s: State, pick: nat)
    requires Shape(c, s) && MgrCan(c, s, pick)
    ensures MgrKeeps(s, MgrDo(c, s, pick))
  {
    hide WalkDo, PutDo, MgrKeeps;
    if s.mgr == Walking { WalkKeeps(c, s); } else { PutKeeps(c, s, pick); }
  }
}
