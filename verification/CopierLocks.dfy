// Who may touch the ring: the mutex excludes as long as there is work or the manager
// runs, and the doubled unlock happens only when neither is the case.
module CopierLocks {
  import opened SourceTree
  import opened Copier
  import opened CopierFrames

  // Nothing queued and nothing to come.
  predicate Quiet(s: State) {
    !s.active && s.count == 0
  }

  // The thread is between taking the lock and giving it up.
  predicate MHolds(pc: MPc) {
    pc.PutTest? || pc.PutWait? || pc.PutStore? || pc.PutAdvance? || pc.PutCount? || pc.PutSignal? || pc.PutUnlock?
  }

  predicate WHolds(pc: WPc) {
    pc.TestCount? || pc.TestActive? || pc.CondWait? || pc.IfCount? || pc.ReadSlot? || pc.AdvanceOut?
    || pc.DecCount? || pc.SignalFull? || pc.UnlockTaken? || pc.UnlockTwice? || pc.UnlockEmpty?
  }

  // About to write out or count, having seen the ring non-empty.
  predicate Taking(pc: WPc) {
    pc.ReadSlot? || pc.AdvanceOut? || pc.DecCount?
  }

  predicate Putting(pc: MPc) {
    pc.PutStore? || pc.PutAdvance? || pc.PutCount?
  }

  // Left the loop.
  predicate Leaving(pc: WPc) {
    pc.End? || pc.Ended? || pc.Returned?
  }

  predicate ManagerOver(pc: MPc) {
    pc.Broadcast? || pc.Finished?
  }

  predicate MgrLock(c: Config, s: State) {
    && (s.active <==> !ManagerOver(s.mgr))
    && (MHolds(s.mgr) ==> s.lock == Some(Manager))
    && (s.lock == Some(Manager) ==> MHolds(s.mgr))
    && (s.mgr.PutWait? ==> s.count == c.cap)
    && (Putting(s.mgr) ==> s.count < c.cap)
    && 0 <= s.count <= c.cap
  }

  predicate WrkLock(s: State, i: nat)
    requires i < |s.ws|
  {
    var pc := s.ws[i];
    && (s.lock == Some(Worker(i)) ==> WHolds(pc))
    && (WHolds(pc) && !Quiet(s) ==> s.lock == Some(Worker(i)))
    && (pc == TestActive || pc == CondWait ==> s.count == 0)
    && (pc == IfCount ==> s.count > 0 || !s.active)
    && (Taking(pc) ==> s.count > 0)
    && (pc == UnlockTwice || pc == UnlockEmpty || Leaving(pc) ==> Quiet(s))
    && (pc == LoopCount ==> !s.active)
  }

  predicate Owned(s: State) {
    s.lock.Some? && s.lock.value.Worker? ==> s.lock.value.id < |s.ws|
  }

  predicate LockInv(c: Config, s: State) {
    && Shape(c, s) && MgrLock(c, s) && Owned(s)
    && forall i: nat :: i < |s.ws| ==> WrkLock(s, i)
  }

  lemma LockInit(c: Config, s: State)
    requires Init(c, s)
    ensures LockInv(c, s)
  {
  }

  lemma LockPut(c: Config, s: State, pick: nat)
    requires LockInv(c, s) && s.mgr != Walking && MgrCan(c, s, pick)
    ensures LockInv(c, PutDo(c, s, pick))
  {
    var s' := PutDo(c, s, pick);
    PutManager(c, s, pick);
    assert |s'.ws| == |s.ws|;
    hide MgrLock, PutDo, WrkLock;
    forall j: nat | j < |s'.ws| ensures WrkLock(s', j) {
      assert WrkLock(s, j);
      PutWorker(c, s, pick, j);
    }
  }

  lemma PutManager(c: Config, s: State, pick: nat)
    requires MgrLock(c, s) && Owned(s) && Shape(c, s) && s.mgr != Walking && MgrCan(c, s, pick)
    ensures MgrLock(c, PutDo(c, s, pick)) && Owned(PutDo(c, s, pick)) && Shape(c, PutDo(c, s, pick))
  {
  }

  lemma PutWorker(c: Config, s: State, pick: nat, j: nat)
    requires MgrLock(c, s) && Shape(c, s) && s.mgr != Walking && MgrCan(c, s, pick) && j < |s.ws| && WrkLock(s, j)
    ensures |PutDo(c, s, pick).ws| == |s.ws| && WrkLock(PutDo(c, s, pick), j)
  {
  }

  lemma LockWalk(c: Config, s: State)
    requires LockInv(c, s) && s.mgr == Walking
    ensures LockInv(c, WalkDo(c, s))
  {
    var s' := WalkDo(c, s);
    forall j: nat | j < |s'.ws| ensures WrkLock(s', j) {
      assert WrkLock(s, j);
    }
  }

  // A worker that moves outside the critical sections and stays in the loop.
  predicate Neutral(pc: WPc) {
    InCopy(pc) || InStats(pc) || pc.Begin? || pc.Started? || pc.LoopActive? || pc.Lock? || pc.Relock? || pc.Asleep?
  }

  lemma LockNeutral(c: Config, s: State, s': State, i: nat)
    requires LockInv(c, s) && Shape(c, s') && Moves(s, s', i) && SameRing(s, s')
    requires !WHolds(s.ws[i]) && Neutral(s'.ws[i])
    ensures LockInv(c, s')
  {
    assert WrkLock(s, i);
    forall j: nat | j < |s'.ws| ensures WrkLock(s', j) {
      assert WrkLock(s, j);
    }
  }

  lemma LockLoop(c: Config, s: State, i: nat)
    requires LockInv(c, s) && WrkCan(c, s, i, 0) && InLoop(s.ws[i])
    ensures LockInv(c, LoopDo(c, s, i))
  {
    var s' := LoopDo(c, s, i);
    LoopEffect(c, s, i);
    assert WrkLock(s, i);
    if Neutral(s'.ws[i]) {
      LockNeutral(c, s, s', i);
    } else {
      assert s'.ws[i].LoopCount? ==> !s.active;
      assert Leaving(s'.ws[i]) ==> Quiet(s);
      forall j: nat | j < |s'.ws| ensures WrkLock(s', j) {
        assert WrkLock(s, j);
      }
    }
  }

  lemma LockTake(c: Config, s: State, i: nat)
    requires LockInv(c, s) && i < |s.ws| && WrkCan(c, s, i, 0) && (s.ws[i].Lock? || s.ws[i].Relock?)
    ensures LockInv(c, RingDo(c, s, i))
  {
    var s' := RingDo(c, s, i);
    assert WrkLock(s, i);
    forall j: nat | j < |s'.ws| ensures WrkLock(s', j) {
      assert WrkLock(s, j);
    }
  }

  lemma LockLook(c: Config, s: State, i: nat)
    requires LockInv(c, s) && i < |s.ws|
    requires s.ws[i].TestCount? || s.ws[i].TestActive? || s.ws[i].IfCount? || s.ws[i].ReadSlot?
    ensures LockInv(c, RingDo(c, s, i))
  {
    var s' := RingDo(c, s, i);
    assert WrkLock(s, i);
    assert SameRing(s, s') && Moves(s, s', i) && WHolds(s'.ws[i]);
    forall j: nat | j < |s'.ws| ensures WrkLock(s', j) {
      assert WrkLock(s, j);
    }
  }

  lemma LockChange(c: Config, s: State, i: nat)
    requires LockInv(c, s) && i < |s.ws|
    requires s.ws[i].AdvanceOut? || s.ws[i].DecCount? || s.ws[i].SignalFull?
    ensures LockInv(c, RingDo(c, s, i))
  {
    var s' := RingDo(c, s, i);
    assert WrkLock(s, i);
    forall j: nat | j < |s'.ws| ensures WrkLock(s', j) {
      assert WrkLock(s, j);
    }
  }

  lemma LockRelease(c: Config, s: State, i: nat)
    requires LockInv(c, s) && i < |s.ws|
    requires s.ws[i].CondWait? || s.ws[i].UnlockTaken? || s.ws[i].UnlockTwice? || s.ws[i].UnlockEmpty?
    ensures LockInv(c, RingDo(c, s, i))
  {
    var s' := RingDo(c, s, i);
    assert WrkLock(s, i);
    assert s' == s.(ws := s'.ws, lock := None) && Moves(s, s', i);
    assert s'.ws[i].UnlockEmpty? || Neutral(s'.ws[i]);
    forall j: nat | j < |s'.ws| ensures WrkLock(s', j) {
      assert WrkLock(s, j);
    }
  }

  lemma LockWrk(c: Config, s: State, i: nat, pick: nat)
    requires LockInv(c, s) && WrkCan(c, s, i, pick)
    ensures LockInv(c, WrkDo(c, s, i, pick))
  {
    var pc := s.ws[i];
    if InLoop(pc) {
      LockLoop(c, s, i);
    } else if InCopy(pc) {
      CopyEffect(c, s, i, pick);
      LockNeutral(c, s, CopyDo(c, s, i, pick), i);
    } else if InStats(pc) {
      StatsEffect(c, s, i);
      LockNeutral(c, s, StatsDo(c, s, i), i);
    } else if pc.Lock? || pc.Relock? {
      LockTake(c, s, i);
    } else if pc.TestCount? || pc.TestActive? || pc.IfCount? || pc.ReadSlot? {
      LockLook(c, s, i);
    } else if pc.AdvanceOut? || pc.DecCount? || pc.SignalFull? {
      LockChange(c, s, i);
    } else {
      LockRelease(c, s, i);
    }
  }

  lemma LockStep(c: Config, s: State, l: Label, s': State)
    requires LockInv(c, s) && Next(c, s, l, s')
    ensures LockInv(c, s')
  {
    match l
    case Mgr(pick) =>
      if s.mgr == Walking { LockWalk(c, s); } else { LockPut(c, s, pick); }
    case Wrk(i, pick) =>
      LockWrk(c, s, i, pick);
    case _ =>
      forall j: nat | j < |s'.ws| ensures WrkLock(s', j) {
        assert WrkLock(s, j);
      }
  }

  // Writing tasks, in, out or count.
  predicate Touches(s: State, t: Tid) {
    match t
    case Manager => Putting(s.mgr)
    case Worker(i) => i < |s.ws| && Taking(s.ws[i])
  }

  // No two threads are ever inside the statements that write the ring, whatever
  // thread the doubled unlock releases.
  lemma RingExclusive(c: Config, s: State, t: Tid, u: Tid)
    requires LockInv(c, s) && Touches(s, t) && Touches(s, u)
    ensures t == u && s.lock == Some(t)
  {
    if t.Worker? { assert WrkLock(s, t.id); }
    if u.Worker? { assert WrkLock(s, u.id); }
  }

  // The doubled unlock runs only when the ring is empty and the manager is done; that
  // stays so, and no thread touches the ring any more.
  lemma DoubleUnlockHarmless(c: Config, s: State, i: nat)
    requires LockInv(c, s) && i < |s.ws| && s.ws[i].UnlockTwice?
    ensures Quiet(s)
  {
    assert WrkLock(s, i);
  }

  lemma QuietForGood(c: Config, s: State, l: Label, s': State)
    requires LockInv(c, s) && Quiet(s) && Next(c, s, l, s')
    ensures Quiet(s') && forall t :: !Touches(s', t)
    ensures s'.slots == s.slots && s'.inn == s.inn && s'.out == s.out && s'.count == s.count
  {
    LockStep(c, s, l, s');
    if l.Wrk? {
      assert WrkLock(s, l.id);
      if InLoop(s.ws[l.id]) { LoopEffect(c, s, l.id); }
      else if InRing(s.ws[l.id]) { RingEffect(c, s, l.id); }
      else if InCopy(s.ws[l.id]) { CopyEffect(c, s, l.id, l.pick); }
      else { StatsEffect(c, s, l.id); }
    }
    forall t ensures !Touches(s', t) {
      if t.Worker? && t.id < |s'.ws| { assert WrkLock(s', t.id); }
    }
  }
}
