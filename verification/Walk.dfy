// The manager's traversal: a recursive reference walk, and the iterative walk that
// splices subdirectories into the list behind the directory being read.
module Walk {
  import opened SourceTree

  // One slot of the shared buffer (FileNames).
  datatype Task = Task(src: string, dest: string)

  datatype Action = Mkdir(dir: string) | Put(task: Task)

  // ---------------------------------------------------------------- reference walk

  // Pre-order: a directory is created, its regular files are queued in reading
  // order, then its subdirectories are visited in reverse reading order.
  function Visit(src: string, dest: string, n: Node): seq<Action>
    decreases n, 1
  {
    [Mkdir(dest)] + if Opens(n) then Puts(src, dest, n.entries) + Subs(src, dest, n.entries) else []
  }

  function Puts(src: string, dest: string, es: seq<Entry>): seq<Action> {
    if es == [] then []
    else
      (if !Dots(es[0].name) && es[0].node.File?
       then [Put(Task(Child(src, es[0].name), Child(dest, es[0].name)))] else [])
      + Puts(src, dest, es[1..])
  }

  function Subs(src: string, dest: string, es: seq<Entry>): seq<Action>
    decreases es, 0
  {
    if es == [] then []
    else
      Subs(src, dest, es[1..])
      + (if !Dots(es[0].name) && es[0].node.Dir?
         then Visit(Child(src, es[0].name), Child(dest, es[0].name), es[0].node) else [])
  }

  function TasksOf(acts: seq<Action>): seq<Task> {
    if acts == [] then []
    else (if acts[0].Put? then [acts[0].task] else []) + TasksOf(acts[1..])
  }

  lemma {:induction false} TasksOfAppend(a: seq<Action>, b: seq<Action>)
    ensures TasksOf(a + b) == TasksOf(a) + TasksOf(b)
  {
    if a == [] {
      assert a + b == b;
    } else {
      var first := if a[0].Put? then [a[0].task] else [];
      assert (a + b)[1..] == a[1..] + b;
      assert TasksOf(a) == first + TasksOf(a[1..]) && TasksOf(a + b) == first + TasksOf(a[1..] + b);
      hide TasksOf;
      TasksOfAppend(a[1..], b);
      assert first + (TasksOf(a[1..]) + TasksOf(b)) == (first + TasksOf(a[1..])) + TasksOf(b);
    }
  }

  // ---------------------------------------------------------------- iterative walk

  datatype DirNode = DirNode(src: string, dest: string, node: Node)

  datatype Phase = Head | Opening | Reading(rest: seq<Entry>)

  // The list from `current` on, and how far `current` has been processed.
  datatype Walk = Walk(list: seq<DirNode>, phase: Phase)

  function Start(src: string, dest: string, n: Node): Walk {
    Walk([DirNode(src, dest, n)], Head)
  }

  function Advance(w: Walk): (r: (Option<Action>, Walk))
    requires w.list != []
  {
    var cur, rest := w.list[0], w.list[1..];
    match w.phase
    case Head => (Some(Mkdir(cur.dest)), w.(phase := Opening))
    case Opening =>
      if Opens(cur.node) then (None, w.(phase := Reading(cur.node.entries)))
      else (None, Walk(rest, Head))
    case Reading(es) =>
      if es == [] then (None, Walk(rest, Head))
      else
        var e, w' := es[0], w.(phase := Reading(es[1..]));
        var src, dest := Child(cur.src, e.name), Child(cur.dest, e.name);
        if Dots(e.name) then (None, w')
        else if e.node.File? then (Some(Put(Task(src, dest))), w')
        else if e.node.Dir? then (None, w'.(list := [cur, DirNode(src, dest, e.node)] + rest))
        else (None, w')
  }

  function VisitAll(list: seq<DirNode>): seq<Action> {
    if list == [] then []
    else Visit(list[0].src, list[0].dest, list[0].node) + VisitAll(list[1..])
  }

  // What the walk still has to do, in terms of the reference walk.
  function Remaining(w: Walk): seq<Action> {
    if w.list == [] then []
    else
      var cur := w.list[0];
      (match w.phase
       case Head => Visit(cur.src, cur.dest, cur.node)
       case Opening =>
         if Opens(cur.node)
         then Puts(cur.src, cur.dest, cur.node.entries) + Subs(cur.src, cur.dest, cur.node.entries)
         else []
       case Reading(es) => Puts(cur.src, cur.dest, es) + Subs(cur.src, cur.dest, es))
      + VisitAll(w.list[1..])
  }

  function Emitted(a: Option<Action>): seq<Action> {
    match a case None => [] case Some(x) => [x]
  }

  // Each step of the list-splicing loop performs the next action of the recursive walk.
  lemma SpliceRefinesWalk(w: Walk)
    requires w.list != []
    ensures Remaining(w) == Emitted(Advance(w).0) + Remaining(Advance(w).1)
  {
    var rest := w.list[1..];
    match w.phase
    case Head =>
    case Opening =>
      if !Opens(w.list[0].node) {
        RemainingHead(rest);
      }
    case Reading(es) =>
      if es == [] {
        RemainingHead(rest);
      } else {
        EntryRefinesWalk(w, es);
      }
  }

  // The step that reads an entry.
  lemma EntryRefinesWalk(w: Walk, es: seq<Entry>)
    requires w.list != [] && w.phase == Reading(es) && es != []
    ensures Remaining(w) == Emitted(Advance(w).0) + Remaining(Advance(w).1)
  {
    hide Child, Dots, Puts, Subs, Visit, VisitAll;
    var cur, rest, e := w.list[0], w.list[1..], es[0];
    var p, s := Puts(cur.src, cur.dest, es[1..]), Subs(cur.src, cur.dest, es[1..]);
    ByFirst(cur.src, cur.dest, es);
    if !Dots(e.name) && e.node.Dir? {
      var sub := DirNode(Child(cur.src, e.name), Child(cur.dest, e.name), e.node);
      AllByFirst(sub, rest);
      assert Advance(w).1.list[1..] == [sub] + rest;
      Regroup(p, s, Visit(sub.src, sub.dest, sub.node), VisitAll(rest));
    } else if !Dots(e.name) && e.node.File? {
      Regroup(Emitted(Advance(w).0), p, s, VisitAll(rest));
    } else {
      assert s + [] == s;
    }
  }

  lemma ByFirst(src: string, dest: string, es: seq<Entry>)
    requires es != []
    ensures var e := es[0]; var from, to := Child(src, e.name), Child(dest, e.name);
      && Puts(src, dest, es)
         == (if !Dots(e.name) && e.node.File? then [Put(Task(from, to))] else []) + Puts(src, dest, es[1..])
      && Subs(src, dest, es)
         == Subs(src, dest, es[1..]) + if !Dots(e.name) && e.node.Dir? then Visit(from, to, e.node) else []
  {
  }

  lemma AllByFirst(d: DirNode, list: seq<DirNode>)
    ensures VisitAll([d] + list) == Visit(d.src, d.dest, d.node) + VisitAll(list)
  {
  }

  lemma Regroup(a: seq<Action>, b: seq<Action>, c: seq<Action>, d: seq<Action>)
    ensures (a + (b + c)) + d == (a + b) + (c + d) == ((a + b) + c) + d == a + ((b + c) + d)
  {
  }

  lemma RemainingHead(list: seq<DirNode>)
    ensures Remaining(Walk(list, Head)) == VisitAll(list)
  {
  }

  // ---------------------------------------------------------------- termination measure

  function Weight(n: Node): nat
    decreases n, 1
  {
    4 + if n.Dir? then EntriesWeight(n.entries) else 0
  }

  function EntriesWeight(es: seq<Entry>): nat
    decreases es, 0
  {
    if es == [] then 0 else 1 + Weight(es[0].node) + EntriesWeight(es[1..])
  }

  function ListWeight(list: seq<DirNode>): nat {
    if list == [] then 0 else Weight(list[0].node) + ListWeight(list[1..])
  }

  // Unvisited tree nodes, weighted.
  function WalkMeasure(w: Walk): nat {
    if w.list == [] then 0
    else
      (match w.phase
       case Head => Weight(w.list[0].node)
       case Opening => Weight(w.list[0].node) - 1
       case Reading(es) => 2 + EntriesWeight(es))
      + ListWeight(w.list[1..])
  }

  lemma WalkTerminates(w: Walk)
    requires w.list != []
    ensures WalkMeasure(Advance(w).1) < WalkMeasure(w)
  {
    var w' := Advance(w).1;
    var cur, rest := w.list[0], w.list[1..];
    if w.phase.Reading? && w.phase.rest != [] {
      var e := w.phase.rest[0];
      var new_node := DirNode(Child(cur.src, e.name), Child(cur.dest, e.name), e.node);
      if !Dots(e.name) && e.node.Dir? {
        assert w'.list[1..] == [new_node] + rest;
        assert ListWeight(w'.list[1..]) == Weight(e.node) + ListWeight(rest);
      }
    }
  }

  // ---------------------------------------------------------------- mkdir comes first

  // Replaying the actions, every directory is made after its parent and every task
  // is queued after the directory of its target; only `root` needs no parent.
  predicate MkdirFirst(acts: seq<Action>, made: set<string>, root: string) {
    acts != [] ==>
      match acts[0]
      case Mkdir(d) => (d == root || ParentDir(d) in made) && MkdirFirst(acts[1..], made + {d}, root)
      case Put(t) => ParentDir(t.dest) in made && MkdirFirst(acts[1..], made, root)
  }

  lemma {:induction false} MkdirFirstMore(acts: seq<Action>, made: set<string>, more: set<string>, root: string)
    requires MkdirFirst(acts, made, root) && made <= more
    ensures MkdirFirst(acts, more, root)
  {
    if acts == [] {
    } else {
      match acts[0]
      case Mkdir(d) => MkdirFirstMore(acts[1..], made + {d}, more + {d}, root);
      case Put(t) => MkdirFirstMore(acts[1..], made, more, root);
    }
  }

  lemma {:induction false} MkdirFirstAppend(a: seq<Action>, b: seq<Action>, made: set<string>, root: string)
    requires MkdirFirst(a, made, root) && MkdirFirst(b, made, root)
    ensures MkdirFirst(a + b, made, root)
  {
    if a == [] {
      assert a + b == b;
    } else {
      assert (a + b)[1..] == a[1..] + b;
      match a[0]
      case Mkdir(d) =>
        MkdirFirstMore(b, made, made + {d}, root);
        MkdirFirstAppend(a[1..], b, made + {d}, root);
      case Put(t) =>
        MkdirFirstAppend(a[1..], b, made, root);
    }
  }

  lemma {:induction false} VisitMakesFirst(src: string, dest: string, n: Node, made: set<string>, root: string)
    requires WellFormed(n) && (dest == root || ParentDir(dest) in made)
    ensures MkdirFirst(Visit(src, dest, n), made, root)
    decreases n, 1
  {
    var acts := Visit(src, dest, n);
    if Opens(n) {
      PutsAfterMkdir(src, dest, n.entries, made + {dest}, root);
      SubsAfterMkdir(src, dest, n.entries, made + {dest}, root);
      MkdirFirstAppend(Puts(src, dest, n.entries), Subs(src, dest, n.entries), made + {dest}, root);
      assert acts[1..] == Puts(src, dest, n.entries) + Subs(src, dest, n.entries);
    } else {
      assert acts[1..] == [];
    }
  }

  lemma {:induction false} PutsAfterMkdir(src: string, dest: string, es: seq<Entry>, made: set<string>, root: string)
    requires WellFormedEntries(es) && dest in made
    ensures MkdirFirst(Puts(src, dest, es), made, root)
  {
    if es == [] {
    } else {
      PutsAfterMkdir(src, dest, es[1..], made, root);
      ChildSplits(dest, es[0].name);
      var acts := Puts(src, dest, es);
      if !Dots(es[0].name) && es[0].node.File? {
        assert acts[1..] == Puts(src, dest, es[1..]);
      } else {
        assert acts == Puts(src, dest, es[1..]);
      }
    }
  }

  lemma {:induction false} SubsAfterMkdir(src: string, dest: string, es: seq<Entry>, made: set<string>, root: string)
    requires WellFormedEntries(es) && dest in made
    ensures MkdirFirst(Subs(src, dest, es), made, root)
    decreases es, 0
  {
    if es == [] {
    } else {
      SubsAfterMkdir(src, dest, es[1..], made, root);
      ChildSplits(dest, es[0].name);
      if !Dots(es[0].name) && es[0].node.Dir? {
        var v := Visit(Child(src, es[0].name), Child(dest, es[0].name), es[0].node);
        VisitMakesFirst(Child(src, es[0].name), Child(dest, es[0].name), es[0].node, made, root);
        MkdirFirstAppend(Subs(src, dest, es[1..]), v, made, root);
      } else {
        assert Subs(src, dest, es) == Subs(src, dest, es[1..]);
      }
    }
  }
}
