// The manager's part: what it has queued, what it is queueing and what its walk still
// has to do make up the reference walk; directories are made before they are needed.
module CopierScript {
  import opened SourceTree
  import opened Walk
  import opened WalkTasks
  import opened Copier
  import opened CopierFrames

  function AllTasks(c: Config): seq<Task> {
    TasksOf(Visit(c.srcRoot, c.dstRoot, c.tree))
  }

  // The task read from the directory and not yet recorded as produced.
  function Pending(pc: MPc): seq<Task> {
    if pc.PutLock? || pc.PutTest? || pc.PutWait? || pc.PutAsleep? || pc.PutRelock? || pc.PutStore? || pc.PutAdvance?
    then [pc.task] else []
  }

  function PendingActs(pc: MPc): seq<Action> {
    if Pending(pc) == [] then [] else [Put(Pending(pc)[0])]
  }

  predicate AfterWalk(pc: MPc) {
    pc.ClearActive? || pc.Broadcast? || pc.Finished?
  }

  predicate TasksPart(c: Config, s: State) {
    s.hist.produced + Pending(s.mgr) + TasksOf(Remaining(s.walk)) == AllTasks(c)
  }

  predicate ParentsPart(c: Config, s: State) {
    && MkdirFirst(PendingActs(s.mgr) + Remaining(s.walk), s.disk.dirs, c.dstRoot)
    && (forall k :: 0 <= k < |s.hist.produced| ==> ParentDir(s.hist.produced[k].dest) in s.disk.dirs)
  }

  ghost predicate MadePart(c: Config, s: State) {
    forall d :: Mkdir(d) in Visit(c.srcRoot, c.dstRoot, c.tree) ==> d in s.disk.dirs || Mkdir(d) in Remaining(s.walk)
  }

  ghost predicate ScriptInv(c: Config, s: State) {
    && Shape(c, s) && TasksPart(c, s) && ParentsPart(c, s) && MadePart(c, s)
    && (AfterWalk(s.mgr) ==> s.walk.list == [])
  }

  lemma ScriptInit(c: Config, s: State)
    requires Init(c, s)
    ensures ScriptInv(c, s)
  {
    var root := Visit(c.srcRoot, c.dstRoot, c.tree);
    VisitMakesFirst(c.srcRoot, c.dstRoot, c.tree, s.disk.dirs, c.dstRoot);
    assert Remaining(s.walk) == root + [] == root;
    assert PendingActs(s.mgr) + Remaining(s.walk) == root;
    assert s.hist.produced + Pending(s.mgr) + TasksOf(root) == TasksOf(root);
    hide Visit;
  }

  lemma AfterMkdir(d: string, rest: seq<Action>, dirs: set<string>, root: string)
    requires MkdirFirst([Mkdir(d)] + rest, dirs, root)
    ensures d == root || ParentDir(d) in dirs
    ensures MkdirFirst(rest, dirs + {d}, root)
  {
    assert ([Mkdir(d)] + rest)[1..] == rest;
  }

  // What a step of the traversal does to the shared state, by the action it emits.
  predicate WalkMoves(c: Config, s: State, s': State, a: Option<Action>, w: Walk) {
    && Shape(c, s') && s'.walk == w && s'.hist == s.hist
    && s'.mgr == (if a.Some? && a.value.Put? then PutLock(a.value.task) else Walking)
    && s'.disk.dirs == (if a.Some? && a.value.Mkdir? && MkdirWorks(c, s.disk, a.value.dir)
                        then s.disk.dirs + {a.value.dir} else s.disk.dirs)
  }

  lemma WalkEffect(c: Config, s: State)
    requires Shape(c, s) && s.mgr == Walking && s.walk.list != []
    ensures WalkMoves(c, s, WalkDo(c, s), Advance(s.walk).0, Advance(s.walk).1)
  {
    hide Advance;
  }

  lemma EmittedTask(a: Option<Action>)
    ensures TasksOf(Emitted(a)) == if a.Some? && a.value.Put? then [a.value.task] else []
  {
  }

  lemma TasksMove(c: Config, s: State, s': State, a: Option<Action>, w: Walk)
    requires TasksPart(c, s) && s.mgr == Walking && WalkMoves(c, s, s', a, w)
    requires Remaining(s.walk) == Emitted(a) + Remaining(w)
    ensures TasksPart(c, s')
  {
    hide Remaining, TasksOf, Emitted;
    TasksOfAppend(Emitted(a), Remaining(w));
    EmittedTask(a);
    assert s.hist.produced + Pending(s.mgr) + TasksOf(Remaining(s.walk))
      == s.hist.produced + Pending(s'.mgr) + TasksOf(Remaining(w));
  }

  lemma ParentsMove(c: Config, s: State, s': State, a: Option<Action>, w: Walk)
    requires ParentsPart(c, s) && s.mgr == Walking && WalkMoves(c, s, s', a, w)
    requires Remaining(s.walk) == Emitted(a) + Remaining(w)
    ensures ParentsPart(c, s')
  {
    hide Remaining;
    assert PendingActs(s.mgr) + Remaining(s.walk) == Remaining(s.walk);
    if a.Some? && a.value.Mkdir? {
      AfterMkdir(a.value.dir, Remaining(w), s.disk.dirs, c.dstRoot);
      assert s'.disk.dirs == s.disk.dirs + {a.value.dir};
      assert PendingActs(s'.mgr) + Remaining(w) == Remaining(w);
    } else {
      assert PendingActs(s'.mgr) + Remaining(w) == Remaining(s.walk);
    }
    hide MkdirFirst;
  }

  // A directory leaves the remaining walk only by being made.
  lemma MadeMove(c: Config, s: State, s': State, a: Option<Action>, w: Walk)
    requires ParentsPart(c, s) && MadePart(c, s) && s.mgr == Walking && WalkMoves(c, s, s', a, w)
    requires Remaining(s.walk) == Emitted(a) + Remaining(w)
    ensures MadePart(c, s')
  {
    hide Remaining, Visit;
    assert PendingActs(s.mgr) + Remaining(s.walk) == Remaining(s.walk);
    if a.Some? && a.value.Mkdir? {
      AfterMkdir(a.value.dir, Remaining(w), s.disk.dirs, c.dstRoot);
    }
  }

  lemma ScriptWalk(c: Config, s: State)
    requires ScriptInv(c, s) && s.mgr == Walking
    ensures ScriptInv(c, WalkDo(c, s))
  {
    if s.walk.list != [] {
      WalkEffect(c, s);
      SpliceRefinesWalk(s.walk);
      var s', a, w := WalkDo(c, s), Advance(s.walk).0, Advance(s.walk).1;
      hide WalkDo, Advance, TasksPart, ParentsPart, MadePart, Remaining;
      TasksMove(c, s, s', a, w);
      ParentsMove(c, s, s', a, w);
      MadeMove(c, s, s', a, w);
    }
  }

  lemma ScriptPut(c: Config, s: State, pick: nat)
    requires ScriptInv(c, s) && s.mgr != Walking && MgrCan(c, s, pick)
    ensures ScriptInv(c, PutDo(c, s, pick))
  {
    hide Remaining, TasksOf;
    var s' := PutDo(c, s, pick);
    assert s'.walk == s.walk && s'.disk == s.disk && MadePart(c, s');
    hide MadePart;
    if s.mgr.PutAdvance? {
      var acts := PendingActs(s.mgr) + Remaining(s.walk);
      assert acts[0] == Put(s.mgr.task) && acts[1..] == PendingActs(s'.mgr) + Remaining(s'.walk);
      assert s'.hist.produced == s.hist.produced + Pending(s.mgr);
      assert s'.hist.produced + Pending(s'.mgr) == s'.hist.produced;
    } else {
      assert Pending(s'.mgr) == Pending(s.mgr) && s'.hist.produced == s.hist.produced;
      hide MkdirFirst;
    }
  }

  // Workers only wake the manager; they make no directories.
  lemma ScriptFrame(c: Config, s: State, s': State)
    requires ScriptInv(c, s) && Shape(c, s')
    requires s'.walk == s.walk && s'.disk.dirs == s.disk.dirs && s'.hist.produced == s.hist.produced
    requires s'.mgr == s.mgr || (s.mgr.PutAsleep? && s'.mgr == PutRelock(s.mgr.task))
    ensures ScriptInv(c, s')
  {
    hide MkdirFirst, Remaining, TasksOf;
  }

  lemma ScriptWrk(c: Config, s: State, i: nat, pick: nat)
    requires ScriptInv(c, s) && WrkCan(c, s, i, pick)
    ensures ScriptInv(c, WrkDo(c, s, i, pick))
  {
    assert Shape(c, s);
    hide ScriptInv;
    var pc := s.ws[i];
    if InLoop(pc) {
      LoopEffect(c, s, i);
      hide LoopDo, RingDo, CopyDo, StatsDo;
      ScriptFrame(c, s, LoopDo(c, s, i));
    } else if InCopy(pc) {
      CopyEffect(c, s, i, pick);
      hide LoopDo, RingDo, CopyDo, StatsDo;
      ScriptFrame(c, s, CopyDo(c, s, i, pick));
    } else if InStats(pc) {
      StatsEffect(c, s, i);
      hide LoopDo, RingDo, CopyDo, StatsDo;
      ScriptFrame(c, s, StatsDo(c, s, i));
    } else {
      RingEffect(c, s, i);
      ScriptFrame(c, s, RingDo(c, s, i));
    }
  }

  lemma ScriptStep(c: Config, s: State, l: Label, s': State)
    requires ScriptInv(c, s) && Next(c, s, l, s')
    ensures ScriptInv(c, s')
  {
    match l
    case Mgr(pick) =>
      hide ScriptInv, WalkDo, PutDo, WrkDo;
      if s.mgr == Walking { ScriptWalk(c, s); } else { ScriptPut(c, s, pick); }
    case Wrk(i, pick) =>
      hide ScriptInv, WrkDo, MgrDo;
      ScriptWrk(c, s, i, pick);
    case _ =>
      ScriptFrame(c, s, s');
  }

  // What a queued task is: a file of the tree, to be written where its directory exists,
  // with a target no other task has.
  predicate Copyable(c: Config, s: State) {
    && (forall k :: 0 <= k < |s.hist.produced| ==> OpenWorks(s.disk, s.hist.produced[k].dest))
    && (forall j, k :: 0 <= j < k < |s.hist.produced| ==> s.hist.produced[j].dest != s.hist.produced[k].dest)
  }

  ghost predicate IsFile(c: Config, path: string) {
    At(c, path).Some? && At(c, path).value.File?
  }

  lemma TaskIsFile(c: Config, t: Task)
    requires GoodConfig(c) && t in AllTasks(c)
    ensures IsFile(c, t.src)
  {
    var rel, content := TaskIsBelow(c, t);
    LeadsResolve(c.tree, rel, File(content));
    LookupRender(c.tree, c.srcRoot, rel);
  }

  // A task is for a file below the root.
  lemma TaskIsBelow(c: Config, t: Task) returns (rel: Rel, content: seq<byte>)
    requires GoodConfig(c) && t in AllTasks(c)
    ensures rel != [] && LeadsTo(c.tree, rel, File(content))
    ensures t == Task(Render(c.srcRoot, rel), Render(c.dstRoot, rel))
  {
    VisitTasks(c.srcRoot, c.dstRoot, c.tree);
    rel :| CopiesFile(c.srcRoot, c.dstRoot, c.tree, rel, t);
    content :| LeadsTo(c.tree, rel, File(content));
    if rel == [] {
      FileRootHasNoTask(c);
    }
  }

  // Its path has a slash, so src[0] is not the terminator.
  lemma TaskHasPath(c: Config, t: Task)
    requires GoodConfig(c) && t in AllTasks(c)
    ensures t.src != ""
  {
    var rel, content := TaskIsBelow(c, t);
    RenderLonger(c.srcRoot, rel);
  }

  lemma FileRootHasNoTask(c: Config)
    ensures c.tree.File? ==> AllTasks(c) == []
  {
    if c.tree.File? {
      assert Visit(c.srcRoot, c.dstRoot, c.tree)[1..] == [];
      assert AllTasks(c) == [] + TasksOf([]);
    }
  }

  lemma Produced(c: Config, s: State)
    requires ScriptInv(c, s)
    ensures Copyable(c, s)
    ensures forall k :: 0 <= k < |s.hist.produced| ==>
      IsFile(c, s.hist.produced[k].src) && s.hist.produced[k].src != ""
  {
    VisitTasks(c.srcRoot, c.dstRoot, c.tree);
    var all := AllTasks(c);
    assert |s.hist.produced| <= |all|;
    forall k | 0 <= k < |s.hist.produced|
      ensures s.hist.produced[k] == all[k] && IsFile(c, s.hist.produced[k].src) && s.hist.produced[k].src != ""
    {
      assert all[k] == (s.hist.produced + Pending(s.mgr) + TasksOf(Remaining(s.walk)))[k];
      TaskIsFile(c, all[k]);
      TaskHasPath(c, all[k]);
    }
  }

  // When the manager is over, it has queued exactly the tasks of the reference walk.
  lemma AllProduced(c: Config, s: State)
    requires ScriptInv(c, s) && AfterWalk(s.mgr)
    ensures s.hist.produced == AllTasks(c)
    ensures forall d :: Mkdir(d) in Visit(c.srcRoot, c.dstRoot, c.tree) ==> d in s.disk.dirs
  {
  }
}
