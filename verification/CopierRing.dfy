// Under every interleaving the ring is a queue: tasks leave in the order they entered.
module CopierRing {
  import opened SourceTree
  import opened Walk
  import opened Copier
  import opened CopierFrames
  import opened CopierLocks
  import R = Ring

  // Tasks produced and not yet taken.
  function Queued(s: State): seq<Task>
    requires s.hist.taken <= |s.hist.produced|
  {
    s.hist.produced[s.hist.taken..]
  }

  // `out` has moved and `count` has not.
  function OutAhead(s: State): int {
    if s.lock.Some? && s.lock.value.Worker? && s.lock.value.id < |s.ws| && s.ws[s.lock.value.id].DecCount?
    then 1 else 0
  }

  // `in` has moved and `count` has not.
  function InAhead(s: State): int {
    if s.mgr.PutCount? then 1 else 0
  }

  predicate RingInv(c: Config, s: State) {
    && Shape(c, s)
    && s.hist.taken <= |s.hist.produced|
    && R.Matches(s.slots, s.out, s.inn, Queued(s))
    && s.count == |Queued(s)| + OutAhead(s) - InAhead(s)
    && (s.mgr.PutAdvance? ==> s.slots[s.inn] == s.mgr.task)
    && (forall i: nat {:trigger s.ws[i]} :: i < |s.ws| && s.ws[i].AdvanceOut? ==>
          Queued(s) != [] && s.ws[i].task == Queued(s)[0])
  }

  lemma RingInit(c: Config, s: State)
    requires Init(c, s)
    ensures RingInv(c, s)
  {
  }

  lemma RingNeutral(c: Config, s: State, s': State, i: nat)
    requires RingInv(c, s) && Shape(c, s') && Moves(s, s', i) && SameRing(s, s')
    requires !s.ws[i].DecCount? && !s'.ws[i].DecCount? && !s'.ws[i].AdvanceOut?
    ensures RingInv(c, s')
  {
  }

  lemma NoTakerWhilePutting(c: Config, s: State)
    requires LockInv(c, s) && Putting(s.mgr)
    ensures forall i: nat :: i < |s.ws| ==> !s.ws[i].AdvanceOut?
    ensures s.lock == Some(Manager)
  {
    forall i: nat | i < |s.ws| ensures !s.ws[i].AdvanceOut? {
      assert WrkLock(s, i);
    }
  }

  lemma RingStore(c: Config, s: State, pick: nat)
    requires LockInv(c, s) && RingInv(c, s) && s.mgr.PutStore?
    ensures RingInv(c, PutDo(c, s, pick))
  {
    NoTakerWhilePutting(c, s);
    R.StoreKeeps(s.slots, s.out, s.inn, Queued(s), s.mgr.task);
    hide LockInv;
  }

  lemma RingAdvance(c: Config, s: State, pick: nat)
    requires LockInv(c, s) && RingInv(c, s) && s.mgr.PutAdvance?
    ensures RingInv(c, PutDo(c, s, pick))
  {
    NoTakerWhilePutting(c, s);
    var s' := PutDo(c, s, pick);
    R.PushMatches(s.slots, s.out, s.inn, Queued(s), s.mgr.task);
    assert Queued(s') == Queued(s) + [s.mgr.task];
    hide LockInv, R.Matches;
  }

  lemma RingPutOther(c: Config, s: State, pick: nat)
    requires LockInv(c, s) && RingInv(c, s) && MgrCan(c, s, pick) && s.mgr != Walking
    requires !s.mgr.PutStore? && !s.mgr.PutAdvance?
    ensures RingInv(c, PutDo(c, s, pick))
  {
    hide R.Matches;
    var s' := PutDo(c, s, pick);
    assert s'.slots == s.slots && s'.inn == s.inn && s'.out == s.out
      && s'.hist.taken == s.hist.taken && s'.hist.produced == s.hist.produced && !s'.mgr.PutAdvance?;
    assert OutAhead(s') == OutAhead(s) by {
      if s'.lock != s.lock {
        assert s.lock == Some(Manager) || s'.lock == Some(Manager);
      }
    }
  }

  lemma RingMgr(c: Config, s: State, pick: nat)
    requires LockInv(c, s) && RingInv(c, s) && MgrCan(c, s, pick)
    ensures RingInv(c, MgrDo(c, s, pick))
  {
    if s.mgr == Walking {
      hide R.Matches, PutDo, Advance;
      assert SameButWalk(s, WalkDo(c, s));
    } else if s.mgr.PutStore? {
      hide RingInv, LockInv, PutDo, WalkDo;
      RingStore(c, s, pick);
    } else if s.mgr.PutAdvance? {
      hide RingInv, LockInv, PutDo, WalkDo;
      RingAdvance(c, s, pick);
    } else {
      hide RingInv, LockInv, PutDo, WalkDo;
      RingPutOther(c, s, pick);
    }
  }

  predicate SameButWalk(s: State, s': State) {
    && s'.slots == s.slots && s'.inn == s.inn && s'.out == s.out && s'.count == s.count && s'.lock == s.lock
    && s'.ws == s.ws && s'.hist == s.hist && !s'.mgr.PutAdvance? && !s'.mgr.PutCount?
  }

  lemma RingTake(c: Config, s: State, i: nat)
    requires LockInv(c, s) && RingInv(c, s) && i < |s.ws|
    requires s.ws[i].ReadSlot? || s.ws[i].AdvanceOut? || s.ws[i].DecCount?
    ensures RingInv(c, RingDo(c, s, i))
  {
    var s' := RingDo(c, s, i);
    assert WrkLock(s, i);
    forall j: nat | j < |s.ws| && j != i ensures !s.ws[j].AdvanceOut? {
      assert WrkLock(s, j);
    }
    match s.ws[i]
    case ReadSlot =>
      R.PopMatches(s.slots, s.out, s.inn, Queued(s));
    case AdvanceOut(t) =>
      R.PopMatches(s.slots, s.out, s.inn, Queued(s));
      assert Queued(s') == Queued(s)[1..];
    case DecCount(job) =>
  }

  lemma RingOther(c: Config, s: State, i: nat)
    requires LockInv(c, s) && RingInv(c, s) && WrkCan(c, s, i, 0) && InRing(s.ws[i])
    requires !s.ws[i].ReadSlot? && !s.ws[i].AdvanceOut? && !s.ws[i].DecCount?
    ensures RingInv(c, RingDo(c, s, i))
  {
    var s' := RingDo(c, s, i);
    RingEffect(c, s, i);
    assert WrkLock(s, i);
    assert !s'.ws[i].DecCount? && !s'.ws[i].AdvanceOut?;
    assert s'.count == s.count && s'.out == s.out && s'.hist.taken == s.hist.taken;
    assert InAhead(s') == InAhead(s);
    assert OutAhead(s') == OutAhead(s) by {
      if s.lock.Some? && s.lock.value.Worker? {
        assert WrkLock(s, s.lock.value.id);
      }
    }
  }

  lemma RingWrk(c: Config, s: State, i: nat, pick: nat)
    requires LockInv(c, s) && RingInv(c, s) && WrkCan(c, s, i, pick)
    ensures RingInv(c, WrkDo(c, s, i, pick))
  {
    var pc := s.ws[i];
    assert Shape(c, s) && (InRing(pc) ==> WrkCan(c, s, i, 0));
    hide LoopDo, RingDo, CopyDo, StatsDo, RingInv, LockInv;
    if InLoop(pc) {
      LoopEffect(c, s, i);
      RingNeutral(c, s, LoopDo(c, s, i), i);
    } else if InCopy(pc) {
      CopyEffect(c, s, i, pick);
      RingNeutral(c, s, CopyDo(c, s, i, pick), i);
    } else if InStats(pc) {
      StatsEffect(c, s, i);
      RingNeutral(c, s, StatsDo(c, s, i), i);
    } else if pc.ReadSlot? || pc.AdvanceOut? || pc.DecCount? {
      RingTake(c, s, i);
    } else {
      RingOther(c, s, i);
    }
  }

  lemma RingStep(c: Config, s: State, l: Label, s': State)
    requires LockInv(c, s) && RingInv(c, s) && Next(c, s, l, s')
    ensures RingInv(c, s')
  {
    match l
    case Mgr(pick) =>
      hide MgrDo, WrkDo, RingInv, LockInv;
      RingMgr(c, s, pick);
    case Wrk(i, pick) =>
      hide MgrDo, WrkDo, RingInv, LockInv;
      RingWrk(c, s, i, pick);
    case SpuriousMgr =>
      hide R.Matches;
    case SpuriousWrk(i) =>
      RingNeutral(c, s, s', i);
  }
}
