// Which directories the copier has made, and `directories_copied`.
module CopierDirs {
  import opened SourceTree
  import opened Walk
  import opened WalkTasks
  import opened Copier
  import opened CopierFrames
  import opened CopierScript
  import opened CopierRuns

  // The directories of the walk.
  ghost function WalkDirs(c: Config): set<string> {
    set a | a in Visit(c.srcRoot, c.dstRoot, c.tree) && a.Mkdir? :: a.dir
  }

  // Nothing but directories of the walk has been added to those there before, and each
  // one added has been counted once.
  ghost predicate DirInv(c: Config, s: State, dirs0: set<string>) {
    && dirs0 <= s.disk.dirs <= dirs0 + WalkDirs(c)
    && s.stats.directories == |s.disk.dirs - dirs0|
    && forall a :: a in Remaining(s.walk) ==> a in Visit(c.srcRoot, c.dstRoot, c.tree)
  }

  lemma DirInit(c: Config, s: State)
    requires Init(c, s)
    ensures DirInv(c, s, s.disk.dirs)
  {
    assert Remaining(s.walk) == Visit(c.srcRoot, c.dstRoot, c.tree) + [];
    assert s.disk.dirs - s.disk.dirs == {};
  }

  // One directory more, or none.
  lemma OneDir(dirs: set<string>, dirs0: set<string>, d: string)
    requires dirs0 <= dirs && d !in dirs
    ensures |(dirs + {d}) - dirs0| == |dirs - dirs0| + 1
  {
    assert (dirs + {d}) - dirs0 == (dirs - dirs0) + {d};
  }

  lemma DirWalk(c: Config, s: State, dirs0: set<string>)
    requires DirInv(c, s, dirs0) && Shape(c, s) && s.mgr == Walking
    ensures DirInv(c, WalkDo(c, s), dirs0)
  {
    if s.walk.list != [] {
      SpliceRefinesWalk(s.walk);
      var a := Advance(s.walk).0;
      if a.Some? && a.value.Mkdir? {
        assert a.value in Remaining(s.walk);
        if MkdirWorks(c, s.disk, a.value.dir) { OneDir(s.disk.dirs, dirs0, a.value.dir); }
      }
      hide Advance, Remaining, Visit;
    }
  }

  lemma DirFrame(c: Config, s: State, s': State, dirs0: set<string>)
    requires DirInv(c, s, dirs0) && s'.disk.dirs == s.disk.dirs && s'.walk == s.walk
    requires s'.stats.directories == s.stats.directories
    ensures DirInv(c, s', dirs0)
  {
  }

  lemma StatsDirs(c: Config, s: State, i: nat)
    requires Shape(c, s) && i < |s.ws| && InStats(s.ws[i])
    ensures var s' := StatsDo(c, s, i);
      s'.disk == s.disk && s'.walk == s.walk && s'.stats.directories == s.stats.directories
  {
  }

  lemma DirStep(c: Config, s: State, l: Label, s': State, dirs0: set<string>)
    requires DirInv(c, s, dirs0) && Next(c, s, l, s')
    ensures DirInv(c, s', dirs0)
  {
    hide DirInv, WalkDo, LoopDo, RingDo, CopyDo, StatsDo;
    match l
    case Mgr(pick) =>
      if s.mgr == Walking {
        DirWalk(c, s, dirs0);
      } else {
        DirFrame(c, s, s', dirs0);
      }
    case Wrk(i, pick) =>
      if InLoop(s.ws[i]) { LoopEffect(c, s, i); }
      else if InRing(s.ws[i]) { RingEffect(c, s, i); }
      else if InCopy(s.ws[i]) { CopyEffect(c, s, i, pick); }
      else { StatsDirs(c, s, i); }
      DirFrame(c, s, s', dirs0);
    case _ => DirFrame(c, s, s', dirs0);
  }

  lemma {:induction false} DirsThroughout(c: Config, run: seq<State>, ls: seq<Label>, n: nat)
    requires IsRun(c, run, ls) && n < |run|
    ensures DirInv(c, run[n], run[0].disk.dirs)
  {
    hide DirInv;
    if n == 0 {
      DirInit(c, run[0]);
    } else {
      DirsThroughout(c, run, ls, n - 1);
      hide Next;
      assert Next(c, run[n - 1], ls[n - 1], run[n - 1 + 1]);
      DirStep(c, run[n - 1], ls[n - 1], run[n], run[0].disk.dirs);
    }
  }

  // In every state of every run `directories_copied` is the number of directories made so
  // far. When a worker is back from the second barrier, the target has exactly the
  // directories it had before and those of the walk, and the others have been counted.
  lemma DirectoriesCounted(c: Config, run: seq<State>, ls: seq<Label>)
    requires IsRun(c, run, ls)
    ensures var s, before := run[|ls|], run[0].disk.dirs;
      && before <= s.disk.dirs <= before + WalkDirs(c) && s.stats.directories == |s.disk.dirs - before|
      && (Released(s) ==> s.disk.dirs == before + WalkDirs(c) && s.stats.directories == |WalkDirs(c) - before|)
  {
    var s, before := run[|ls|], run[0].disk.dirs;
    DirsThroughout(c, run, ls, |ls|);
    if Released(s) {
      AllMade(c, run, ls);
      assert s.disk.dirs == before + WalkDirs(c);
      assert s.disk.dirs - before == WalkDirs(c) - before;
    }
    hide IsRun, Released, WalkDirs;
  }

  lemma AllMade(c: Config, run: seq<State>, ls: seq<Label>)
    requires IsRun(c, run, ls) && Released(run[|ls|])
    ensures WalkDirs(c) <= run[|ls|].disk.dirs
  {
    var s := run[|ls|];
    RunSafe(c, run, ls, |ls|);
    ReleasedMeansAllOver(c, s, run[0].disk.files);
    AllProduced(c, s);
    hide Inv, Visit;
  }

  lemma WalkDirsAre(c: Config, d: string)
    ensures d in WalkDirs(c) <==> exists rel :: MakesDir(c.dstRoot, c.tree, rel, d)
  {
    var acts := Visit(c.srcRoot, c.dstRoot, c.tree);
    assert acts[0] == Mkdir(c.dstRoot);
    assert d in WalkDirs(c) <==> Mkdir(d) in acts;
    if Mkdir(d) in acts {
      var rel := VisitMakesOnlyDirs(c.srcRoot, c.dstRoot, c.tree, d);
    }
    if rel :| MakesDir(c.dstRoot, c.tree, rel, d) {
      var m :| LeadsTo(c.tree, rel, m) && (rel == [] || m.Dir?);
      if rel != [] {
        VisitMakesDirs(c.srcRoot, c.dstRoot, c.tree, rel, m);
      }
    }
  }

  // In the end the target has the directories it had before, its root, and one for each
  // directory of the source at the same relative path.
  lemma TargetDirectories(c: Config, run: seq<State>, ls: seq<Label>, d: string)
    requires IsRun(c, run, ls) && Released(run[|ls|])
    ensures d in run[|ls|].disk.dirs <==>
      d in run[0].disk.dirs || exists rel :: MakesDir(c.dstRoot, c.tree, rel, d)
  {
    DirectoriesCounted(c, run, ls);
    WalkDirsAre(c, d);
    hide IsRun, Released, WalkDirs, MakesDir;
  }
}
