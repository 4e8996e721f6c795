// Which tasks the walk queues: exactly one per reachable regular file, with source
// and target at the same relative path, and no two with the same target.
module WalkTasks {
  import opened SourceTree
  import opened Walk

  // t copies the file at `rel` below the node mounted at (src, dest).
  ghost predicate CopiesFile(src: string, dest: string, n: Node, rel: Rel, t: Task) {
    && t == Task(Render(src, rel), Render(dest, rel))
    && exists content :: LeadsTo(n, rel, File(content))
  }

  // The same, for the i-th entry of a directory mounted at (src, dest).
  ghost predicate FromEntry(src: string, dest: string, es: seq<Entry>, t: Task, i: nat, rel: Rel) {
    && i < |es| && es[i].name != "." && es[i].name != ".."
    && CopiesFile(Child(src, es[i].name), Child(dest, es[i].name), es[i].node, rel, t)
  }

  predicate NoRepeat(ts: seq<Task>) {
    forall i, j :: 0 <= i < j < |ts| ==> ts[i].dest != ts[j].dest
  }

  lemma NoRepeatAppend(a: seq<Task>, b: seq<Task>)
    requires NoRepeat(a) && NoRepeat(b)
    requires forall x, y :: x in a && y in b ==> x.dest != y.dest
    ensures NoRepeat(a + b)
  {
    forall i, j | 0 <= i < j < |a + b|
      ensures (a + b)[i].dest != (a + b)[j].dest
    {
      if i < |a| && |a| <= j {
        assert (a + b)[i] in a && (a + b)[j] in b;
      }
    }
  }

  lemma SameHead(root: string, a: string, ra: Rel, b: string, rb: Rel)
    requires AllSlashFree([a] + ra) && AllSlashFree([b] + rb)
    requires Render(root, [a] + ra) == Render(root, [b] + rb)
    ensures a == b
  {
    RenderInjective(root, [a] + ra, [b] + rb);
    assert a == ([a] + ra)[0] == ([b] + rb)[0];
  }

  lemma EntrySlashFree(src: string, dest: string, es: seq<Entry>, t: Task, i: nat, rel: Rel)
    requires WellFormedEntries(es) && FromEntry(src, dest, es, t, i, rel)
    ensures AllSlashFree([es[i].name] + rel)
  {
    FindEntry(es, i);
    var content :| LeadsTo(es[i].node, rel, File(content));
    LeadsResolve(es[i].node, rel, File(content));
  }

  // Files below different entries have different targets.
  lemma EntriesApart(src: string, dest: string, es: seq<Entry>, t: Task, u: Task, i: nat, j: nat, ri: Rel, rj: Rel)
    requires WellFormedEntries(es)
    requires FromEntry(src, dest, es, t, i, ri) && FromEntry(src, dest, es, u, j, rj) && i != j
    ensures t.dest != u.dest
  {
    DistinctNames(es, if i < j then i else j, if i < j then j else i);
    EntrySlashFree(src, dest, es, t, i, ri);
    EntrySlashFree(src, dest, es, u, j, rj);
    RenderHead(dest, es[i].name, ri);
    RenderHead(dest, es[j].name, rj);
    if t.dest == u.dest {
      SameHead(dest, es[i].name, ri, es[j].name, rj);
    }
  }

  ghost predicate AllFromEntries(src: string, dest: string, es: seq<Entry>, ts: seq<Task>, dirs: bool) {
    forall t :: t in ts ==> exists i: nat, rel :: FromEntry(src, dest, es, t, i, rel) && es[i].node.Dir? == dirs
  }

  lemma ShiftEntries(src: string, dest: string, es: seq<Entry>, ts: seq<Task>, dirs: bool)
    requires es != [] && AllFromEntries(src, dest, es[1..], ts, dirs)
    ensures forall t :: t in ts ==>
      exists i: nat, rel :: i > 0 && FromEntry(src, dest, es, t, i, rel) && es[i].node.Dir? == dirs
  {
    forall t | t in ts
      ensures exists i: nat, rel :: i > 0 && FromEntry(src, dest, es, t, i, rel) && es[i].node.Dir? == dirs
    {
      var i: nat, rel :| FromEntry(src, dest, es[1..], t, i, rel) && es[1..][i].node.Dir? == dirs;
      assert FromEntry(src, dest, es, t, i + 1, rel);
    }
  }

  lemma {:induction false} PutsTasks(src: string, dest: string, es: seq<Entry>)
    requires WellFormedEntries(es)
    ensures AllFromEntries(src, dest, es, TasksOf(Puts(src, dest, es)), false)
    ensures NoRepeat(TasksOf(Puts(src, dest, es)))
  {
    if es == [] {
    } else {
      var head := if !Dots(es[0].name) && es[0].node.File?
        then [Put(Task(Child(src, es[0].name), Child(dest, es[0].name)))] else [];
      var tail := Puts(src, dest, es[1..]);
      PutsTasks(src, dest, es[1..]);
      ShiftEntries(src, dest, es, TasksOf(tail), false);
      TasksOfAppend(head, tail);
      forall t | t in TasksOf(head)
        ensures FromEntry(src, dest, es, t, 0, []) && es[0].node.File?
      {
        assert t == head[0].task;
      }
      Combine(src, dest, es, TasksOf(head), TasksOf(tail));
    }
  }

  lemma Combine(src: string, dest: string, es: seq<Entry>, a: seq<Task>, b: seq<Task>)
    requires WellFormedEntries(es) && NoRepeat(a) && NoRepeat(b)
    requires forall t :: t in a ==> exists rel :: FromEntry(src, dest, es, t, 0, rel)
    requires forall t :: t in b ==> exists i: nat, rel :: i > 0 && FromEntry(src, dest, es, t, i, rel)
    ensures NoRepeat(a + b) && NoRepeat(b + a)
  {
    forall x, y | x in a && y in b
      ensures x.dest != y.dest
    {
      var ri :| FromEntry(src, dest, es, x, 0, ri);
      var j: nat, rj :| j > 0 && FromEntry(src, dest, es, y, j, rj);
      EntriesApart(src, dest, es, x, y, 0, j, ri, rj);
    }
    NoRepeatAppend(a, b);
    NoRepeatAppend(b, a);
  }

  lemma {:induction false} SubsTasks(src: string, dest: string, es: seq<Entry>)
    requires WellFormedEntries(es)
    ensures AllFromEntries(src, dest, es, TasksOf(Subs(src, dest, es)), true)
    ensures NoRepeat(TasksOf(Subs(src, dest, es)))
    decreases es, 0
  {
    if es == [] {
    } else {
      var s', d' := Child(src, es[0].name), Child(dest, es[0].name);
      var head := if !Dots(es[0].name) && es[0].node.Dir? then Visit(s', d', es[0].node) else [];
      var tail := Subs(src, dest, es[1..]);
      SubsTasks(src, dest, es[1..]);
      ShiftEntries(src, dest, es, TasksOf(tail), true);
      TasksOfAppend(tail, head);
      if head != [] {
        VisitTasks(s', d', es[0].node);
        forall t | t in TasksOf(head)
          ensures exists rel :: FromEntry(src, dest, es, t, 0, rel) && es[0].node.Dir?
        {
          var rel :| CopiesFile(s', d', es[0].node, rel, t);
          assert FromEntry(src, dest, es, t, 0, rel);
        }
      }
      Combine(src, dest, es, TasksOf(head), TasksOf(tail));
    }
  }

  // Soundness: every queued task copies a reachable regular file to the same relative
  // path, and no two queued tasks have the same target.
  lemma {:induction false} VisitTasks(src: string, dest: string, n: Node)
    requires WellFormed(n)
    ensures forall t :: t in TasksOf(Visit(src, dest, n)) ==> exists rel :: CopiesFile(src, dest, n, rel, t)
    ensures NoRepeat(TasksOf(Visit(src, dest, n)))
    decreases n, 1
  {
    if Opens(n) {
      var p, s := Puts(src, dest, n.entries), Subs(src, dest, n.entries);
      PutsTasks(src, dest, n.entries);
      SubsTasks(src, dest, n.entries);
      TasksOfAppend(p, s);
      assert Visit(src, dest, n)[1..] == p + s;
      forall x, y | x in TasksOf(p) && y in TasksOf(s)
        ensures x.dest != y.dest
      {
        var i: nat, ri :| FromEntry(src, dest, n.entries, x, i, ri) && n.entries[i].node.Dir? == false;
        var j: nat, rj :| FromEntry(src, dest, n.entries, y, j, rj) && n.entries[j].node.Dir? == true;
        EntriesApart(src, dest, n.entries, x, y, i, j, ri, rj);
      }
      NoRepeatAppend(TasksOf(p), TasksOf(s));
      forall t | t in TasksOf(p + s)
        ensures exists rel :: CopiesFile(src, dest, n, rel, t)
      {
        var i: nat, rel :| FromEntry(src, dest, n.entries, t, i, rel);
        LiftEntry(src, dest, n, t, i, rel);
      }
    } else {
      assert TasksOf(Visit(src, dest, n)) == [] by {
        assert Visit(src, dest, n)[1..] == [];
      }
    }
  }

  lemma LiftEntry(src: string, dest: string, n: Node, t: Task, i: nat, rel: Rel)
    requires WellFormed(n) && Opens(n) && FromEntry(src, dest, n.entries, t, i, rel)
    ensures CopiesFile(src, dest, n, [n.entries[i].name] + rel, t)
  {
    var name := n.entries[i].name;
    var content :| LeadsTo(n.entries[i].node, rel, File(content));
    RenderHead(src, name, rel);
    RenderHead(dest, name, rel);
    assert ([name] + rel)[1..] == rel;
    assert LeadsTo(n, [name] + rel, File(content));
  }

  // Completeness: every regular file reached through readable directories is queued.
  lemma {:induction false} VisitComplete(src: string, dest: string, n: Node, rel: Rel, content: seq<byte>)
    requires rel != [] && LeadsTo(n, rel, File(content))
    ensures Task(Render(src, rel), Render(dest, rel)) in TasksOf(Visit(src, dest, n))
    decreases |rel|
  {
    var i: nat :| i < |n.entries| && n.entries[i].name == rel[0] && LeadsTo(n.entries[i].node, rel[1..], File(content));
    var e := n.entries[i];
    var s', d' := Child(src, e.name), Child(dest, e.name);
    var p, s := Puts(src, dest, n.entries), Subs(src, dest, n.entries);
    TasksOfAppend(p, s);
    assert Visit(src, dest, n)[1..] == p + s;
    assert rel == [e.name] + rel[1..];
    RenderHead(src, e.name, rel[1..]);
    RenderHead(dest, e.name, rel[1..]);
    if rel[1..] == [] {
      FileIsPut(src, dest, n.entries, i);
    } else {
      VisitComplete(s', d', e.node, rel[1..], content);
      SubIsVisited(src, dest, n.entries, i, Task(Render(s', rel[1..]), Render(d', rel[1..])));
    }
  }

  lemma {:induction false} FileIsPut(src: string, dest: string, es: seq<Entry>, i: nat)
    requires i < |es| && es[i].name != "." && es[i].name != ".." && es[i].node.File?
    ensures Task(Child(src, es[i].name), Child(dest, es[i].name)) in TasksOf(Puts(src, dest, es))
  {
    var head := if !Dots(es[0].name) && es[0].node.File?
      then [Put(Task(Child(src, es[0].name), Child(dest, es[0].name)))] else [];
    TasksOfAppend(head, Puts(src, dest, es[1..]));
    if i == 0 {
      assert TasksOf(head) == [head[0].task];
    } else {
      FileIsPut(src, dest, es[1..], i - 1);
    }
  }

  lemma {:induction false} SubIsVisited(src: string, dest: string, es: seq<Entry>, i: nat, t: Task)
    requires i < |es| && es[i].name != "." && es[i].name != ".." && es[i].node.Dir?
    requires t in TasksOf(Visit(Child(src, es[i].name), Child(dest, es[i].name), es[i].node))
    ensures t in TasksOf(Subs(src, dest, es))
  {
    var head := if !Dots(es[0].name) && es[0].node.Dir?
      then Visit(Child(src, es[0].name), Child(dest, es[0].name), es[0].node) else [];
    TasksOfAppend(Subs(src, dest, es[1..]), head);
    if i == 0 {
    } else {
      SubIsVisited(src, dest, es[1..], i - 1, t);
    }
  }

  // Every directory reached through readable directories is created.
  lemma {:induction false} VisitMakesDirs(src: string, dest: string, n: Node, rel: Rel, m: Node)
    requires LeadsTo(n, rel, m) && m.Dir?
    ensures Mkdir(Render(dest, rel)) in Visit(src, dest, n)
    decreases |rel|
  {
    if rel == [] {
      assert Visit(src, dest, n)[0] == Mkdir(dest);
    } else {
      var i: nat :| i < |n.entries| && n.entries[i].name == rel[0] && LeadsTo(n.entries[i].node, rel[1..], m);
      var e := n.entries[i];
      assert rel == [e.name] + rel[1..];
      RenderHead(dest, e.name, rel[1..]);
      VisitMakesDirs(Child(src, e.name), Child(dest, e.name), e.node, rel[1..], m);
      SubActs(src, dest, n.entries, i, Mkdir(Render(dest, rel)));
      assert Visit(src, dest, n) == [Mkdir(dest)] + (Puts(src, dest, n.entries) + Subs(src, dest, n.entries));
    }
  }

  lemma {:induction false} SubActs(src: string, dest: string, es: seq<Entry>, i: nat, a: Action)
    requires i < |es| && es[i].name != "." && es[i].name != ".." && es[i].node.Dir?
    requires a in Visit(Child(src, es[i].name), Child(dest, es[i].name), es[i].node)
    ensures a in Subs(src, dest, es)
  {
    if i == 0 {
    } else {
      SubActs(src, dest, es[1..], i - 1, a);
    }
  }

  // d is the target of the directory at `rel`, or of whatever the root is.
  ghost predicate MakesDir(dest: string, n: Node, rel: Rel, d: string) {
    d == Render(dest, rel) && exists m :: LeadsTo(n, rel, m) && (rel == [] || m.Dir?)
  }

  lemma {:induction false} PutsMakeNothing(src: string, dest: string, es: seq<Entry>, d: string)
    ensures Mkdir(d) !in Puts(src, dest, es)
  {
    if es == [] {
    } else {
      PutsMakeNothing(src, dest, es[1..], d);
    }
  }

  lemma {:induction false} SubsMakeDirs(src: string, dest: string, es: seq<Entry>, d: string) returns (i: nat, rel: Rel)
    requires Mkdir(d) in Subs(src, dest, es)
    ensures i < |es| && es[i].name != "." && es[i].name != ".." && es[i].node.Dir?
    ensures MakesDir(Child(dest, es[i].name), es[i].node, rel, d)
    decreases es, 0
  {
    if Mkdir(d) in Subs(src, dest, es[1..]) {
      i, rel := SubsMakeDirs(src, dest, es[1..], d);
      i := i + 1;
    } else {
      i := 0;
      rel := VisitMakesOnlyDirs(Child(src, es[0].name), Child(dest, es[0].name), es[0].node, d);
    }
  }

  // Nothing but such directories is created.
  lemma {:induction false} VisitMakesOnlyDirs(src: string, dest: string, n: Node, d: string) returns (rel: Rel)
    requires Mkdir(d) in Visit(src, dest, n)
    ensures MakesDir(dest, n, rel, d)
    decreases n, 1
  {
    if d == dest {
      rel := [];
      assert LeadsTo(n, rel, n);
    } else {
      PutsMakeNothing(src, dest, n.entries, d);
      var i, below := SubsMakeDirs(src, dest, n.entries, d);
      var name := n.entries[i].name;
      rel := [name] + below;
      RenderHead(dest, name, below);
      var m :| LeadsTo(n.entries[i].node, below, m) && (below == [] || m.Dir?);
      assert rel[1..] == below && LeadsTo(n, rel, m);
    }
  }
}
