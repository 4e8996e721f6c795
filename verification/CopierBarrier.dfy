// The barrier that is used twice: it keeps first and second arrivals apart.
module CopierBarrier {
  import opened Counting
  import opened Copier
  import opened CopierFrames

  predicate AtFirst(pc: WPc) {
    pc.Started?
  }

  predicate AtSecond(pc: WPc) {
    pc.Ended?
  }

  predicate Over(pc: WPc) {
    pc.Ended? || pc.Returned?
  }

  predicate BarrierInv(c: Config, s: State) {
    && Shape(c, s)
    && s.barrier.phase <= 2 && s.barrier.arrived < c.workers
    && (forall i: nat :: i < |s.ws| ==> PhaseOK(s.barrier.phase, s.ws[i]))
    && s.barrier.arrived ==
         (if s.barrier.phase == 0 then Count(AtFirst, s.ws)
          else if s.barrier.phase == 1 then Count(AtSecond, s.ws)
          else 0)
  }

  predicate PhaseOK(phase: nat, pc: WPc) {
    match phase
    case 0 => pc.Begin? || pc == Started(0)
    case 1 => !pc.Begin? && !pc.Returned? && (pc.Started? ==> pc.gen == 0) && (pc.Ended? ==> pc.gen == 1)
    case _ => pc == Ended(1) || pc.Returned?
  }

  lemma BarrierInit(c: Config, s: State)
    requires Init(c, s)
    ensures BarrierInv(c, s)
  {
    CountBounds(AtFirst, s.ws);
  }

  // How the two counts follow a move of worker i.
  lemma Recount(s: State, s': State, i: nat)
    requires Moves(s, s', i)
    ensures Count(AtFirst, s'.ws) == Count(AtFirst, s.ws) - One(AtFirst(s.ws[i])) + One(AtFirst(s'.ws[i]))
    ensures Count(AtSecond, s'.ws) == Count(AtSecond, s.ws) - One(AtSecond(s.ws[i])) + One(AtSecond(s'.ws[i]))
    ensures Count(AtFirst, s'.ws) == |s'.ws| ==> forall j: nat :: j < |s'.ws| ==> s'.ws[j].Started?
    ensures Count(AtSecond, s'.ws) == |s'.ws| ==> forall j: nat :: j < |s'.ws| ==> s'.ws[j].Ended?
    ensures Count(AtFirst, s'.ws) <= |s'.ws| && Count(AtSecond, s'.ws) <= |s'.ws|
    ensures (forall j: nat :: j < |s'.ws| ==> !s'.ws[j].Ended?) ==> Count(AtSecond, s'.ws) == 0
  {
    CountUpdate(AtFirst, s.ws, i, s'.ws[i]);
    CountUpdate(AtSecond, s.ws, i, s'.ws[i]);
    CountBounds(AtFirst, s'.ws);
    CountBounds(AtSecond, s'.ws);
  }

  lemma BarrierArrive(c: Config, s: State, i: nat)
    requires BarrierInv(c, s) && i < |s.ws| && (s.ws[i].Begin? || s.ws[i].End?)
    ensures BarrierInv(c, LoopDo(c, s, i))
  {
    var s' := LoopDo(c, s, i);
    assert PhaseOK(s.barrier.phase, s.ws[i]);
    Recount(s, s', i);
    hide Count;
    forall j: nat | j < |s'.ws| ensures PhaseOK(s'.barrier.phase, s'.ws[j]) {
      assert PhaseOK(s.barrier.phase, s.ws[j]);
    }
  }

  // Worker i moves without arriving.
  lemma BarrierMoves(c: Config, s: State, s': State, i: nat)
    requires BarrierInv(c, s) && Shape(c, s') && Moves(s, s', i) && s'.barrier == s.barrier
    requires !s'.ws[i].Started? && !s'.ws[i].Ended? && PhaseOK(s.barrier.phase, s'.ws[i])
    requires s.ws[i].Started? ==> s.barrier.phase > 0
    requires s.ws[i].Ended? ==> s.barrier.phase > 1
    ensures BarrierInv(c, s')
  {
    Recount(s, s', i);
    hide Count;
    forall j: nat | j < |s'.ws| ensures PhaseOK(s'.barrier.phase, s'.ws[j]) {
      assert PhaseOK(s.barrier.phase, s.ws[j]);
    }
  }

  lemma BarrierPass(c: Config, s: State, i: nat)
    requires BarrierInv(c, s) && WrkCan(c, s, i, 0) && InLoop(s.ws[i]) && !s.ws[i].Begin? && !s.ws[i].End?
    ensures BarrierInv(c, LoopDo(c, s, i))
  {
    assert PhaseOK(s.barrier.phase, s.ws[i]);
    hide BarrierInv;
    BarrierMoves(c, s, LoopDo(c, s, i), i);
  }

  // Between the barriers nothing counts.
  lemma BarrierFrame(c: Config, s: State, s': State)
    requires BarrierInv(c, s) && Shape(c, s') && s'.barrier == s.barrier
    requires forall i: nat :: i < |s.ws| ==> s'.ws[i] == s.ws[i] || (Between(s.ws[i]) && Between(s'.ws[i]))
    ensures BarrierInv(c, s')
  {
    CountSame(AtFirst, s.ws, s'.ws);
    CountSame(AtSecond, s.ws, s'.ws);
    forall i: nat | i < |s'.ws| ensures PhaseOK(s'.barrier.phase, s'.ws[i]) {
      assert PhaseOK(s.barrier.phase, s.ws[i]);
    }
  }

  predicate Between(pc: WPc) {
    !pc.Begin? && !pc.Started? && !pc.End? && !pc.Ended? && !pc.Returned?
  }

  lemma BarrierInside(c: Config, s: State, s': State, i: nat)
    requires BarrierInv(c, s) && Shape(c, s') && Moves(s, s', i) && s'.barrier == s.barrier
    requires Between(s.ws[i]) && Between(s'.ws[i])
    ensures BarrierInv(c, s')
  {
    assert PhaseOK(s.barrier.phase, s.ws[i]);
    BarrierMoves(c, s, s', i);
  }

  lemma BarrierWork(c: Config, s: State, i: nat, pick: nat)
    requires BarrierInv(c, s) && WrkCan(c, s, i, pick) && !InLoop(s.ws[i])
    ensures BarrierInv(c, WrkDo(c, s, i, pick))
  {
    var pc := s.ws[i];
    assert Shape(c, s);
    hide BarrierInv, LoopDo, RingDo, CopyDo, StatsDo;
    if InRing(pc) {
      RingEffect(c, s, i);
      BarrierInside(c, s, RingDo(c, s, i), i);
    } else if InCopy(pc) {
      CopyEffect(c, s, i, pick);
      BarrierInside(c, s, CopyDo(c, s, i, pick), i);
    } else {
      StatsEffect(c, s, i);
      BarrierInside(c, s, StatsDo(c, s, i), i);
    }
  }

  lemma BarrierStep(c: Config, s: State, l: Label, s': State)
    requires BarrierInv(c, s) && Next(c, s, l, s')
    ensures BarrierInv(c, s')
  {
    hide BarrierInv, MgrDo, LoopDo, RingDo, CopyDo, StatsDo;
    match l
    case Mgr(pick) =>
      MgrEffect(c, s, pick);
      BarrierFrame(c, s, s');
    case Wrk(i, pick) =>
      if s.ws[i].Begin? || s.ws[i].End? { BarrierArrive(c, s, i); }
      else if InLoop(s.ws[i]) { BarrierPass(c, s, i); }
      else { BarrierWork(c, s, i, pick); }
    case _ => BarrierFrame(c, s, s');
  }
}
