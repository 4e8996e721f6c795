// In which order the walk queues files, without the functions that make up the walk.
module WalkOrder {
  import opened SourceTree
  import opened Walk
  import opened WalkTasks

  // Where the two paths part: of two files the earlier entry comes first, a file comes
  // before everything in a subdirectory, and of two subdirectories the later entry.
  predicate Earlier(n: Node, a: Rel, b: Rel)
    decreases |a|
  {
    && a != [] && b != [] && n.Dir?
    && exists i: nat, j: nat :: i < |n.entries| && j < |n.entries|
         && n.entries[i].name == a[0] && n.entries[j].name == b[0]
         && if i == j then Earlier(n.entries[i].node, a[1..], b[1..])
            else if |a| == 1 && |b| == 1 then i < j
            else if |a| > 1 && |b| > 1 then i > j
            else |a| == 1
  }

  ghost predicate InOrder(src: string, dest: string, n: Node, ts: seq<Task>) {
    forall x, y, a, b :: 0 <= x < y < |ts| && CopiesFile(src, dest, n, a, ts[x]) && CopiesFile(src, dest, n, b, ts[y])
      ==> Earlier(n, a, b)
  }

  ghost predicate PutsInOrder(src: string, dest: string, es: seq<Entry>, ts: seq<Task>) {
    forall x, y, i: nat, j: nat, ri, rj ::
      0 <= x < y < |ts| && FromEntry(src, dest, es, ts[x], i, ri) && FromEntry(src, dest, es, ts[y], j, rj) ==> i < j
  }

  ghost predicate SubsInOrder(src: string, dest: string, es: seq<Entry>, ts: seq<Task>) {
    forall x, y, i: nat, j: nat, ri, rj
      {:trigger FromEntry(src, dest, es, ts[x], i, ri), FromEntry(src, dest, es, ts[y], j, rj)} ::
      0 <= x < y < |ts| && FromEntry(src, dest, es, ts[x], i, ri) && FromEntry(src, dest, es, ts[y], j, rj) ==>
        i > j || (i == j && Earlier(es[i].node, ri, rj))
  }

  // A task comes from one entry only, by one path.
  lemma OneSource(src: string, dest: string, es: seq<Entry>, t: Task, i: nat, j: nat, ri: Rel, rj: Rel)
    requires WellFormedEntries(es) && FromEntry(src, dest, es, t, i, ri) && FromEntry(src, dest, es, t, j, rj)
    ensures i == j && ri == rj
  {
    if i != j {
      EntriesApart(src, dest, es, t, t, i, j, ri, rj);
    }
    EntrySlashFree(src, dest, es, t, i, ri);
    EntrySlashFree(src, dest, es, t, j, rj);
    RestSlashFree(es[i].name, ri);
    RestSlashFree(es[i].name, rj);
    RenderInjective(Child(src, es[i].name), ri, rj);
  }

  lemma RestSlashFree(name: string, rel: Rel)
    requires AllSlashFree([name] + rel)
    ensures AllSlashFree(rel)
  {
    forall i | 0 <= i < |rel| ensures SlashFree(rel[i]) {
      assert ([name] + rel)[i + 1] == rel[i];
    }
  }

  // A task of the list is of the entries that the list is made of.
  lemma KindOfEntry(src: string, dest: string, es: seq<Entry>, ts: seq<Task>, dirs: bool, x: nat, i: nat, rel: Rel)
    requires WellFormedEntries(es) && AllFromEntries(src, dest, es, ts, dirs)
    requires x < |ts| && FromEntry(src, dest, es, ts[x], i, rel)
    ensures es[i].node.Dir? == dirs && (rel == [] <==> !dirs)
  {
    assert ts[x] in ts;
    var j: nat, other :| FromEntry(src, dest, es, ts[x], j, other) && es[j].node.Dir? == dirs;
    OneSource(src, dest, es, ts[x], i, j, rel, other);
    var content :| LeadsTo(es[i].node, rel, File(content));
  }

  lemma FromTail(src: string, dest: string, es: seq<Entry>, ts: seq<Task>, dirs: bool, x: nat, i: nat, rel: Rel)
    requires es != [] && WellFormedEntries(es) && AllFromEntries(src, dest, es[1..], ts, dirs)
    requires x < |ts| && FromEntry(src, dest, es, ts[x], i, rel)
    ensures i > 0 && FromEntry(src, dest, es[1..], ts[x], i - 1, rel)
  {
    assert ts[x] in ts;
    var j: nat, other :| FromEntry(src, dest, es[1..], ts[x], j, other) && es[1..][j].node.Dir? == dirs;
    assert FromEntry(src, dest, es, ts[x], j + 1, other);
    OneSource(src, dest, es, ts[x], i, j + 1, rel, other);
  }

  lemma {:induction false} PutsOrdered(src: string, dest: string, es: seq<Entry>)
    requires WellFormedEntries(es)
    ensures PutsInOrder(src, dest, es, TasksOf(Puts(src, dest, es)))
  {
    if es == [] {
    } else {
      var tail := Puts(src, dest, es[1..]);
      var head := if !Dots(es[0].name) && es[0].node.File?
        then [Put(Task(Child(src, es[0].name), Child(dest, es[0].name)))] else [];
      TasksOfAppend(head, tail);
      PutsTasks(src, dest, es[1..]);
      PutsOrdered(src, dest, es[1..]);
      if head != [] {
        assert LeadsTo(es[0].node, [], File(es[0].node.content));
        assert FromEntry(src, dest, es, head[0].task, 0, []);
      }
      PutsMore(src, dest, es, TasksOf(head), TasksOf(tail));
    }
  }

  // What comes of the first entry, before what comes of the others.
  lemma PutsMore(src: string, dest: string, es: seq<Entry>, h: seq<Task>, ts: seq<Task>)
    requires WellFormedEntries(es) && es != [] && AllFromEntries(src, dest, es[1..], ts, false)
    requires |h| <= 1 && forall t :: t in h ==> FromEntry(src, dest, es, t, 0, [])
    requires PutsInOrder(src, dest, es[1..], ts)
    ensures PutsInOrder(src, dest, es, h + ts)
  {
    var all := h + ts;
    forall x, y, i: nat, j: nat, ri, rj |
      0 <= x < y < |all| && FromEntry(src, dest, es, all[x], i, ri) && FromEntry(src, dest, es, all[y], j, rj)
      ensures i < j
    {
      FromTail(src, dest, es, ts, false, y - |h|, j, rj);
      if x < |h| {
        assert all[x] in h;
        OneSource(src, dest, es, all[x], i, 0, ri, []);
      } else {
        FromTail(src, dest, es, ts, false, x - |h|, i, ri);
      }
    }
  }

  lemma {:induction false} SubsOrdered(src: string, dest: string, es: seq<Entry>)
    requires WellFormedEntries(es)
    ensures SubsInOrder(src, dest, es, TasksOf(Subs(src, dest, es)))
    decreases es, 0
  {
    if es == [] {
    } else {
      var s', d' := Child(src, es[0].name), Child(dest, es[0].name);
      var tail := Subs(src, dest, es[1..]);
      TasksOfAppend(tail, []);
      SubsTasks(src, dest, es[1..]);
      SubsOrdered(src, dest, es[1..]);
      if !Dots(es[0].name) && es[0].node.Dir? {
        var head := Visit(s', d', es[0].node);
        TasksOfAppend(tail, head);
        VisitTasks(s', d', es[0].node);
        VisitInOrder(s', d', es[0].node);
        SubsMore(src, dest, es, TasksOf(tail), TasksOf(head));
      } else {
        SubsMore(src, dest, es, TasksOf(tail), []);
      }
    }
  }

  // What is below the first entry, after what is below the others.
  lemma SubsMore(src: string, dest: string, es: seq<Entry>, ts: seq<Task>, h: seq<Task>)
    requires WellFormedEntries(es) && es != [] && AllFromEntries(src, dest, es[1..], ts, true)
    requires SubsInOrder(src, dest, es[1..], ts)
    requires h != [] ==> es[0].name != "." && es[0].name != ".."
    requires forall t :: t in h ==>
      exists r :: CopiesFile(Child(src, es[0].name), Child(dest, es[0].name), es[0].node, r, t)
    requires InOrder(Child(src, es[0].name), Child(dest, es[0].name), es[0].node, h)
    ensures SubsInOrder(src, dest, es, ts + h)
  {
    hide Earlier, InOrder, WellFormedEntries, AllFromEntries;
    var all := ts + h;
    forall x, y, i: nat, j: nat, ri, rj
      {:trigger FromEntry(src, dest, es, all[x], i, ri), FromEntry(src, dest, es, all[y], j, rj)} |
      0 <= x < y < |all| && FromEntry(src, dest, es, all[x], i, ri) && FromEntry(src, dest, es, all[y], j, rj)
      ensures i > j || (i == j && Earlier(es[i].node, ri, rj))
    {
      if y < |ts| {
        FromTail(src, dest, es, ts, true, x, i, ri);
        FromTail(src, dest, es, ts, true, y, j, rj);
        assert es[1..][i - 1] == es[i];
      } else if x < |ts| {
        FromTail(src, dest, es, ts, true, x, i, ri);
        FromHead(src, dest, es, h, y - |ts|, j, rj);
      } else {
        FromHead(src, dest, es, h, x - |ts|, i, ri);
        FromHead(src, dest, es, h, y - |ts|, j, rj);
        TwoOfHead(Child(src, es[0].name), Child(dest, es[0].name), es[0].node, h, x - |ts|, y - |ts|, ri, rj);
      }
    }
  }

  lemma TwoOfHead(src: string, dest: string, n: Node, h: seq<Task>, x: nat, y: nat, a: Rel, b: Rel)
    requires InOrder(src, dest, n, h) && x < y < |h|
    requires CopiesFile(src, dest, n, a, h[x]) && CopiesFile(src, dest, n, b, h[y])
    ensures Earlier(n, a, b)
  {
  }

  lemma FromHead(src: string, dest: string, es: seq<Entry>, h: seq<Task>, x: nat, i: nat, rel: Rel)
    requires WellFormedEntries(es) && es != [] && es[0].name != "." && es[0].name != ".."
    requires x < |h| && FromEntry(src, dest, es, h[x], i, rel)
    requires forall t :: t in h ==>
      exists r :: CopiesFile(Child(src, es[0].name), Child(dest, es[0].name), es[0].node, r, t)
    ensures i == 0
  {
    assert h[x] in h;
    var r :| CopiesFile(Child(src, es[0].name), Child(dest, es[0].name), es[0].node, r, h[x]);
    assert FromEntry(src, dest, es, h[x], 0, r);
    OneSource(src, dest, es, h[x], i, 0, rel, r);
  }

  lemma ToEntry(src: string, dest: string, n: Node, t: Task, rel: Rel) returns (i: nat)
    requires n.Dir? && CopiesFile(src, dest, n, rel, t)
    ensures rel != [] && i < |n.entries| && n.entries[i].name == rel[0]
    ensures FromEntry(src, dest, n.entries, t, i, rel[1..])
  {
    var content :| LeadsTo(n, rel, File(content));
    i :| i < |n.entries| && n.entries[i].name == rel[0] && LeadsTo(n.entries[i].node, rel[1..], File(content));
    assert rel == [rel[0]] + rel[1..];
    RenderHead(src, rel[0], rel[1..]);
    RenderHead(dest, rel[0], rel[1..]);
  }

  // Whatever is queued earlier comes earlier in this order.
  lemma {:induction false} VisitInOrder(src: string, dest: string, n: Node)
    requires WellFormed(n)
    ensures InOrder(src, dest, n, TasksOf(Visit(src, dest, n)))
    decreases n, 1
  {
    hide Earlier;
    var ts := TasksOf(Visit(src, dest, n));
    if Opens(n) {
      var es := n.entries;
      var p, s := Puts(src, dest, es), Subs(src, dest, es);
      PutsTasks(src, dest, es);
      SubsTasks(src, dest, es);
      PutsOrdered(src, dest, es);
      SubsOrdered(src, dest, es);
      TasksOfAppend(p, s);
      assert Visit(src, dest, n)[1..] == p + s;
      assert ts == TasksOf(p) + TasksOf(s);
      forall x, y, a, b |
        0 <= x < y < |ts| && CopiesFile(src, dest, n, a, ts[x]) && CopiesFile(src, dest, n, b, ts[y])
        ensures Earlier(n, a, b)
      {
        PairInOrder(src, dest, n, TasksOf(p), TasksOf(s), x, y, a, b);
      }
    } else {
      assert Visit(src, dest, n)[1..] == [];
      assert ts == [];
    }
  }

  lemma PairInOrder(src: string, dest: string, n: Node, p: seq<Task>, s: seq<Task>, x: nat, y: nat, a: Rel, b: Rel)
    requires WellFormed(n) && n.Dir? && x < y < |p| + |s|
    requires AllFromEntries(src, dest, n.entries, p, false) && AllFromEntries(src, dest, n.entries, s, true)
    requires PutsInOrder(src, dest, n.entries, p) && SubsInOrder(src, dest, n.entries, s)
    requires CopiesFile(src, dest, n, a, (p + s)[x]) && CopiesFile(src, dest, n, b, (p + s)[y])
    ensures Earlier(n, a, b)
  {
    var es, all := n.entries, p + s;
    var i := ToEntry(src, dest, n, all[x], a);
    var j := ToEntry(src, dest, n, all[y], b);
    if y < |p| {
      KindOfEntry(src, dest, es, p, false, x, i, a[1..]);
      KindOfEntry(src, dest, es, p, false, y, j, b[1..]);
    } else if x < |p| {
      KindOfEntry(src, dest, es, p, false, x, i, a[1..]);
      KindOfEntry(src, dest, es, s, true, y - |p|, j, b[1..]);
    } else {
      KindOfEntry(src, dest, es, s, true, x - |p|, i, a[1..]);
      KindOfEntry(src, dest, es, s, true, y - |p|, j, b[1..]);
      assert i > j || (i == j && Earlier(es[i].node, a[1..], b[1..]));
    }
    Part(n, a, b, i, j);
  }

  lemma Part(n: Node, a: Rel, b: Rel, i: nat, j: nat)
    requires n.Dir? && a != [] && b != [] && i < |n.entries| && j < |n.entries|
    requires n.entries[i].name == a[0] && n.entries[j].name == b[0]
    requires if i == j then Earlier(n.entries[i].node, a[1..], b[1..])
      else if |a| == 1 && |b| == 1 then i < j
      else if |a| > 1 && |b| > 1 then i > j
      else |a| == 1
    ensures Earlier(n, a, b)
  {
  }
}
