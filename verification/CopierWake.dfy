// Wake-ups: when there is work some worker is awake, when there is room the manager is.
module CopierWake {
  import opened Walk
  import opened Copier
  import opened CopierFrames
  import opened CopierLocks

  // The holder of the lock is about to signal not_full.
  predicate RoomSignalled(s: State) {
    s.lock.Some? && s.lock.value.Worker? && s.lock.value.id < |s.ws| && s.ws[s.lock.value.id].SignalFull?
  }

  predicate SomeoneAwake(s: State) {
    exists i: nat :: i < |s.ws| && s.ws[i] != Asleep
  }

  predicate WakeInv(c: Config, s: State) {
    && (s.mgr.PutAsleep? ==> s.count == c.cap || RoomSignalled(s))
    && (s.count > 0 && !s.mgr.PutSignal? ==> SomeoneAwake(s))
    && (!s.mgr.Finished? ==> s.hist.committed == {})
    && (s.mgr.Finished? ==> forall i: nat :: i < |s.ws| && (s.ws[i] == Asleep || s.ws[i] == CondWait) ==>
          i in s.hist.committed)
  }

  // On the way to sleep, or asleep.
  predicate Stranded(pc: WPc) {
    pc.CondWait? || pc.Asleep?
  }

  lemma WakeInit(c: Config, s: State)
    requires Init(c, s)
    ensures WakeInv(c, s)
  {
  }

  // A worker that moves and is awake afterwards.
  lemma WakeMoves(c: Config, s: State, s': State, i: nat)
    requires WakeInv(c, s) && Moves(s, s', i) && s'.ws[i] != Asleep && s'.ws[i] != CondWait
    requires s'.mgr == s.mgr || (s.mgr.PutAsleep? && s'.mgr.PutRelock?)
    requires s'.hist.committed == s.hist.committed
    requires s'.mgr.PutAsleep? ==> s'.count == c.cap || RoomSignalled(s')
    ensures WakeInv(c, s')
  {
    if s'.count > 0 && !s'.mgr.PutSignal? {
      assert s'.ws[i] != Asleep;
    }
  }

  lemma WakeOutside(c: Config, s: State, s': State, i: nat)
    requires LockInv(c, s) && WakeInv(c, s) && Moves(s, s', i) && SameRing(s, s')
    requires !WHolds(s.ws[i]) && s'.ws[i] != Asleep && s'.ws[i] != CondWait
    ensures WakeInv(c, s')
  {
    assert WrkLock(s, i);
    hide LockInv;
    WakeMoves(c, s, s', i);
  }

  lemma WakeRing(c: Config, s: State, i: nat)
    requires LockInv(c, s) && WakeInv(c, s) && WrkCan(c, s, i, 0) && InRing(s.ws[i])
    ensures WakeInv(c, RingDo(c, s, i))
  {
    var s' := RingDo(c, s, i);
    RingEffect(c, s, i);
    assert WrkLock(s, i);
    hide LockInv;
    if s.ws[i].CondWait? || s'.ws[i].CondWait? {
      assert s.count == 0 == s'.count && s'.mgr == s.mgr;
    } else {
      WakeRoom(c, s, i);
      assert s'.mgr == s.mgr || (s.mgr.PutAsleep? && s'.mgr.PutRelock?);
      hide RingDo;
      WakeMoves(c, s, s', i);
    }
  }

  // While the manager sleeps, no step loses the news that there is room.
  lemma WakeRoom(c: Config, s: State, i: nat)
    requires LockInv(c, s) && WakeInv(c, s) && WrkCan(c, s, i, 0) && InRing(s.ws[i])
    ensures var s' := RingDo(c, s, i); s'.mgr.PutAsleep? ==> s'.count == c.cap || RoomSignalled(s')
  {
    assert WrkLock(s, i);
    if RoomSignalled(s) {
      assert WrkLock(s, s.lock.value.id);
    }
  }

  lemma WakeWrk(c: Config, s: State, i: nat, pick: nat)
    requires LockInv(c, s) && WakeInv(c, s) && WrkCan(c, s, i, pick)
    ensures WakeInv(c, WrkDo(c, s, i, pick))
  {
    var pc := s.ws[i];
    assert Shape(c, s) && (InRing(pc) ==> WrkCan(c, s, i, 0));
    hide LockInv, WakeInv, LoopDo, RingDo, CopyDo, StatsDo;
    if InLoop(pc) {
      LoopEffect(c, s, i);
      WakeOutside(c, s, LoopDo(c, s, i), i);
    } else if InRing(pc) {
      WakeRing(c, s, i);
    } else if InCopy(pc) {
      CopyEffect(c, s, i, pick);
      WakeOutside(c, s, CopyDo(c, s, i, pick), i);
    } else {
      StatsEffect(c, s, i);
      WakeOutside(c, s, StatsDo(c, s, i), i);
    }
  }

  // The manager sleeps only if the ring is full, and misses only those about to sleep.
  lemma PutSleeps(c: Config, s: State, pick: nat)
    requires LockInv(c, s) && WakeInv(c, s) && s.mgr != Walking && MgrCan(c, s, pick)
    ensures var s' := PutDo(c, s, pick);
      && (s'.mgr.PutAsleep? ==> s'.count == c.cap)
      && (!s'.mgr.Finished? ==> s'.hist.committed == {})
      && (s'.mgr.Finished? ==> forall i: nat :: i < |s'.ws| && (s'.ws[i] == Asleep || s'.ws[i] == CondWait) ==>
            i in s'.hist.committed)
  {
    hide SomeoneAwake, WrkLock;
  }

  lemma PutLeavesAwake(c: Config, s: State, pick: nat)
    requires Shape(c, s) && s.mgr != Walking && MgrCan(c, s, pick)
    requires s.count > 0 && !s.mgr.PutSignal? ==> SomeoneAwake(s)
    ensures var s' := PutDo(c, s, pick); s'.count > 0 && !s'.mgr.PutSignal? ==> SomeoneAwake(s')
  {
    var s' := PutDo(c, s, pick);
    PutKeeps(c, s, pick);
    if s.mgr.PutSignal? {
      if SomeoneAsleep(s) {
        assert s'.ws[pick] == Relock;
      } else {
        assert s'.ws[0] != Asleep;
      }
    } else if s'.count > 0 && !s'.mgr.PutSignal? {
      var i: nat :| i < |s.ws| && s.ws[i] != Asleep;
      assert s'.ws[i] != Asleep;
    }
  }

  lemma WakePut(c: Config, s: State, pick: nat)
    requires LockInv(c, s) && WakeInv(c, s) && s.mgr != Walking && MgrCan(c, s, pick)
    ensures WakeInv(c, PutDo(c, s, pick))
  {
    assert Shape(c, s);
    PutSleeps(c, s, pick);
    PutLeavesAwake(c, s, pick);
    hide LockInv, PutDo, SomeoneAwake;
  }

  lemma WakeStep(c: Config, s: State, l: Label, s': State)
    requires LockInv(c, s) && WakeInv(c, s) && Next(c, s, l, s')
    ensures WakeInv(c, s')
  {
    match l
    case Mgr(pick) =>
      if s.mgr == Walking {
        WakeWalk(c, s);
      } else {
        hide WakeInv, LockInv, PutDo, WalkDo;
        WakePut(c, s, pick);
      }
    case Wrk(i, pick) =>
      hide WakeInv, LockInv, MgrDo, WrkDo;
      WakeWrk(c, s, i, pick);
    case SpuriousMgr =>
    case SpuriousWrk(i) =>
      hide WrkDo, MgrDo, LockInv;
      WakeSpurious(c, s, i);
  }

  lemma WakeWalk(c: Config, s: State)
    requires WakeInv(c, s) && Shape(c, s) && s.mgr == Walking
    ensures WakeInv(c, WalkDo(c, s))
  {
    hide Advance;
    assert WalkDo(c, s).ws == s.ws;
  }

  lemma WakeSpurious(c: Config, s: State, i: nat)
    requires WakeInv(c, s) && LockInv(c, s) && i < |s.ws| && s.ws[i] == Asleep
    ensures WakeInv(c, To(s, i, Relock))
  {
    assert WrkLock(s, i);
    WakeOutside(c, s, To(s, i, Relock), i);
  }

  // Without `active` nobody goes to wait on not_empty.
  lemma RingStrands(c: Config, s: State, j: nat)
    requires Shape(c, s) && j < |s.ws| && InRing(s.ws[j]) && !s.active && s.mgr.Finished?
    ensures var s' := RingDo(c, s, j); j < |s'.ws| && (Stranded(s'.ws[j]) <==> Stranded(s.ws[j])) && s'.mgr == s.mgr
  {
  }

  lemma WrkStrands(c: Config, s: State, j: nat, pick: nat)
    requires Shape(c, s) && WrkCan(c, s, j, pick) && !s.active && s.mgr.Finished?
    ensures var s' := WrkDo(c, s, j, pick);
      && Moves(s, s', j) && s'.mgr.Finished? && s'.hist.committed == s.hist.committed
      && (Stranded(s'.ws[j]) <==> Stranded(s.ws[j]))
  {
    hide LoopDo, RingDo, CopyDo, StatsDo;
    if InLoop(s.ws[j]) {
      LoopEffect(c, s, j);
    } else if InRing(s.ws[j]) {
      RingEffect(c, s, j);
      RingStrands(c, s, j);
    } else if InCopy(s.ws[j]) {
      CopyEffect(c, s, j, pick);
    } else {
      StatsEffect(c, s, j);
    }
  }

  // Once the manager has finished, the stranded workers are those that were, but for
  // one that wakes up spuriously.
  lemma StrandStep(c: Config, s: State, l: Label, s': State, i: nat)
    requires LockInv(c, s) && Next(c, s, l, s') && s.mgr.Finished? && i < |s.ws|
    ensures s'.mgr.Finished? && s'.hist.committed == s.hist.committed && |s'.ws| == |s.ws|
    ensures Stranded(s'.ws[i]) <==> Stranded(s.ws[i]) && l != SpuriousWrk(i)
  {
    assert !s.active;
    hide LockInv, WrkDo, WrkCan;
    if l.Wrk? {
      WrkStrands(c, s, l.id, l.pick);
    }
  }

  // The broadcast leaves stranded exactly those it misses.
  lemma BroadcastStrands(c: Config, s: State, l: Label, s': State, i: nat)
    requires Next(c, s, l, s') && !s.mgr.Finished? && s'.mgr.Finished? && i < |s.ws|
    ensures |s'.ws| == |s.ws| && (Stranded(s'.ws[i]) <==> i in s'.hist.committed)
    ensures s'.hist.committed == set j | 0 <= j < |s.ws| && s.ws[j] == CondWait
  {
    hide Advance, LoopDo, CopyDo, StatsDo;
    if l.Wrk? {
      if InLoop(s.ws[l.id]) { LoopEffect(c, s, l.id); }
      else if InCopy(s.ws[l.id]) { CopyEffect(c, s, l.id, l.pick); }
      else if InStats(s.ws[l.id]) { StatsEffect(c, s, l.id); }
    }
  }
}
