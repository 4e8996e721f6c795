// The manager's directory list as it is in memory: nodes linked by `next`, with new
// nodes spliced in behind the one being read.
module DirList {
  import opened SourceTree
  import opened Walk

  class DirCell {
    const src: string
    const dest: string
    const node: Node  // what opendir(src) finds
    var next: DirCell?
    var freed: bool

    constructor (src: string, dest: string, node: Node, next: DirCell?)
      ensures this.src == src && this.dest == dest && this.node == node && this.next == next && !freed
    {
      this.src, this.dest, this.node, this.next, freed := src, dest, node, next, false;
    }

    // A cell that has been freed has no contents any more.
    function Src(): string
      requires !freed
      reads this
    {
      src
    }

    function Dest(): string
      requires !freed
      reads this
    {
      dest
    }

    function Found(): Node
      requires !freed
      reads this
    {
      node
    }

    function Next(): DirCell?
      requires !freed
      reads this
    {
      next
    }

    // free(): at most once.
    method Free()
      requires !freed
      modifies `freed
      ensures freed
    {
      freed := true;
    }
  }

  ghost function After(cells: seq<DirCell>, i: nat): DirCell? {
    if i + 1 < |cells| then cells[i + 1] else null
  }

  // The cells reached from `first`, in order and without a cycle; none has been freed.
  ghost predicate Linked(first: DirCell?, cells: seq<DirCell>)
    reads cells
  {
    && first == (if cells == [] then null else cells[0])
    && (forall i: nat {:trigger cells[i].next} :: i < |cells| ==> cells[i].next == After(cells, i))
    && (forall i: nat :: i < |cells| ==> !cells[i].freed)
    && (forall i, j :: 0 <= i < j < |cells| ==> cells[i] != cells[j])
  }

  ghost function View(cells: seq<DirCell>): (list: seq<DirNode>)
    ensures |list| == |cells|
    ensures forall i :: 0 <= i < |cells| ==> list[i] == DirNode(cells[i].src, cells[i].dest, cells[i].node)
  {
    if cells == [] then [] else [DirNode(cells[0].src, cells[0].dest, cells[0].node)] + View(cells[1..])
  }

  lemma LinkedTail(first: DirCell?, cells: seq<DirCell>)
    requires Linked(first, cells) && first != null
    ensures first in cells && first !in cells[1..] && cells[0] == first && !first.freed
    ensures Linked(first.next, cells[1..]) && View(cells[1..]) == View(cells)[1..]
  {
    var rest := cells[1..];
    assert first.next == After(cells, 0);
    forall i: nat | i < |rest|
      ensures rest[i].next == After(rest, i) && !rest[i].freed
      ensures View(rest)[i] == View(cells)[1..][i]
    {
      assert rest[i] == cells[i + 1] && cells[i + 1].next == After(cells, i + 1) && !cells[i + 1].freed;
    }
  }

  // The directories that the actions make, in order.
  function MkdirsOf(acts: seq<Action>): seq<string> {
    if acts == [] then []
    else
      var n := |acts| - 1;
      MkdirsOf(acts[..n]) + (if acts[n].Mkdir? then [acts[n].dir] else [])
  }

  lemma MkdirsMore(acts: seq<Action>, a: Action)
    ensures MkdirsOf(acts + [a]) == MkdirsOf(acts) + (if a.Mkdir? then [a.dir] else [])
  {
    assert (acts + [a])[..|acts + [a]| - 1] == acts;
  }

  ghost function Dests(cells: seq<DirCell>): (dests: seq<string>)
    ensures |dests| == |cells| && forall i :: 0 <= i < |cells| ==> dests[i] == cells[i].dest
  {
    seq(|cells|, i requires 0 <= i < |cells| => cells[i].dest)
  }

  lemma DestsMore(cells: seq<DirCell>, cell: DirCell)
    ensures Dests(cells + [cell]) == Dests(cells) + [cell.dest]
  {
  }

  lemma FollowKeeps(log: seq<Action>, w: Walk, all: seq<Action>)
    requires w.list != [] && log + Remaining(w) == all
    ensures log + Emitted(Advance(w).0) + Remaining(Advance(w).1) == all
    ensures WalkMeasure(Advance(w).1) < WalkMeasure(w)
  {
    SpliceRefinesWalk(w);
    WalkTerminates(w);
    hide Advance, Remaining, WalkMeasure, Emitted;
    var emitted, rest := Emitted(Advance(w).0), Remaining(Advance(w).1);
    assert log + emitted + rest == log + (emitted + rest);
  }

  lemma NothingEmitted(log: seq<Action>)
    ensures log + Emitted(None) == log
  {
  }

  // One step of the walk: the action it emits is the next one of the reference.
  ghost function Follow(log: seq<Action>, w: Walk, all: seq<Action>): (w': Walk)
    requires w.list != [] && log + Remaining(w) == all
    ensures w' == Advance(w).1
    ensures log + Emitted(Advance(w).0) + Remaining(w') == all
    ensures Advance(w).0 == None ==> log + Remaining(w') == all
    ensures WalkMeasure(w') < WalkMeasure(w)
  {
    hide Remaining, WalkMeasure, Emitted;
    FollowKeeps(log, w, all);
    NothingEmitted(log);
    Advance(w).1
  }

  // The list with the added cell behind its first.
  ghost function Spliced(cells: seq<DirCell>, added: DirCell): seq<DirCell>
    requires cells != []
  {
    [cells[0], added] + cells[1..]
  }

  lemma SplicedIn(cells: seq<DirCell>, added: DirCell)
    requires cells != [] && added !in cells && !added.freed && added.next == After(cells, 0)
    requires cells[0].next == added
    requires forall i: nat {:trigger cells[i].next} :: 0 < i < |cells| ==> cells[i].next == After(cells, i)
    requires forall i: nat :: i < |cells| ==> !cells[i].freed
    requires forall i, j :: 0 <= i < j < |cells| ==> cells[i] != cells[j]
    ensures Linked(cells[0], Spliced(cells, added))
  {
    var after := Spliced(cells, added);
    forall i: nat | i < |after| ensures after[i].next == After(after, i) && !after[i].freed {
      if i >= 2 { assert after[i] == cells[i - 1] && !cells[i - 1].freed && cells[i - 1].next == After(cells, i - 1); }
    }
    forall i, j | 0 <= i < j < |after| ensures after[i] != after[j] {
      assert j >= 2 ==> after[j] == cells[j - 1];
      assert i >= 2 ==> after[i] == cells[i - 1];
    }
  }

  lemma SplicedView(cells: seq<DirCell>, added: DirCell)
    requires cells != []
    ensures View(Spliced(cells, added))
      == [View(cells)[0], DirNode(added.src, added.dest, added.node)] + View(cells)[1..]
  {
  }

  // The new cell takes over the successor of the current one and becomes its successor.
  method SpliceAfter(current: DirCell, src: string, dest: string, node: Node, ghost cells: seq<DirCell>)
    returns (ghost cells': seq<DirCell>)
    requires Linked(current, cells)
    modifies current
    ensures |cells'| == |cells| + 1 && cells'[0] == current && fresh(cells'[1]) && cells'[2..] == cells[1..]
    ensures Linked(current, cells')
    ensures View(cells') == [View(cells)[0], DirNode(src, dest, node)] + View(cells)[1..]
  {
    assert cells != [] && cells[0] == current && !cells[0].freed;
    var added := new DirCell(src, dest, node, current.Next());
    assert added.next == After(cells, 0);
    current.next := added;
    SplicedIn(cells, added);
    SplicedView(cells, added);
    hide Linked, View, After;
    cells' := Spliced(cells, added);
  }

  // One entry of the directory being read.
  method ReadEntry(current: DirCell, entry: Entry, ghost rest: seq<Entry>, ghost cells: seq<DirCell>,
                   log0: seq<Action>, ghost w: Walk, ghost all: seq<Action>)
    returns (log: seq<Action>, ghost cells': seq<DirCell>)
    requires Linked(current, cells) && w == Walk(View(cells), Reading([entry] + rest))
    requires log0 + Remaining(w) == all
    modifies current
    ensures cells' != [] && Linked(current, cells')
    ensures forall cell :: cell in cells' ==> cell in cells || fresh(cell)
    ensures log + Remaining(Walk(View(cells'), Reading(rest))) == all && MkdirsOf(log) == MkdirsOf(log0)
    ensures WalkMeasure(Walk(View(cells'), Reading(rest))) < WalkMeasure(w)
  {
    log, cells' := log0, cells;
    ghost var w' := Follow(log, w, all);
    assert ([entry] + rest)[1..] == rest;
    assert !current.freed by { LinkedTail(current, cells); }
    hide Remaining, WalkMeasure, MkdirsOf;
    if !Dots(entry.name) {
      var srcPath, destPath := Child(current.Src(), entry.name), Child(current.Dest(), entry.name);
      if entry.node.File? {
        MkdirsMore(log, Put(Task(srcPath, destPath)));
        log := log + [Put(Task(srcPath, destPath))];
      } else if entry.node.Dir? {
        cells' := SpliceAfter(current, srcPath, destPath, entry.node, cells);
      }
    }
    assert w' == Walk(View(cells'), Reading(rest));
  }

  // The readdir() loop of one directory.
  method ReadDir(current: DirCell, ghost cells: seq<DirCell>, log0: seq<Action>, ghost w: Walk, ghost all: seq<Action>)
    returns (log: seq<Action>, ghost cells': seq<DirCell>)
    requires Linked(current, cells) && Opens(current.node)
    requires w == Walk(View(cells), Reading(current.node.entries)) && log0 + Remaining(w) == all
    modifies current
    ensures cells' != [] && Linked(current, cells')
    ensures forall cell :: cell in cells' ==> cell in cells || fresh(cell)
    ensures log + Remaining(Walk(View(cells'), Reading([]))) == all && MkdirsOf(log) == MkdirsOf(log0)
    ensures WalkMeasure(Walk(View(cells'), Reading([]))) <= WalkMeasure(w)
  {
    hide Remaining, WalkMeasure, Linked, View, MkdirsOf;
    assert cells != [] && !current.freed by { LinkedTail(current, cells); }
    log, cells' := log0, cells;
    var entries, i := current.Found().entries, 0;
    assert entries[0..] == entries;
    while i < |entries|
      invariant 0 <= i <= |entries| && cells' != [] && Linked(current, cells')
      invariant forall cell :: cell in cells' ==> cell in cells || fresh(cell)
      invariant log + Remaining(Walk(View(cells'), Reading(entries[i..]))) == all && MkdirsOf(log) == MkdirsOf(log0)
      invariant WalkMeasure(Walk(View(cells'), Reading(entries[i..]))) <= WalkMeasure(w)
    {
      assert entries[i..] == [entries[i]] + entries[i + 1..];
      log, cells' := ReadEntry(current, entries[i], entries[i + 1..], cells', log,
                               Walk(View(cells'), Reading(entries[i..])), all);
      i := i + 1;
    }
    assert entries[i..] == [];
  }

  lemma AfterOpening(list: seq<DirNode>)
    requires list != []
    ensures Advance(Walk(list, Opening)).1
      == if Opens(list[0].node) then Walk(list, Reading(list[0].node.entries)) else Walk(list[1..], Head)
    ensures Advance(Walk(list, Opening)).0 == None
  {
  }

  lemma AfterReading(list: seq<DirNode>)
    requires list != []
    ensures Advance(Walk(list, Reading([]))) == (None, Walk(list[1..], Head))
  {
  }

  // opendir, the readdir() loop, and on to the next cell. The cell of a directory that
  // has been read is freed; that of one that cannot be opened is only passed over.
  method OpenAndRead(current: DirCell, ghost cells: seq<DirCell>, log0: seq<Action>, ghost all: seq<Action>)
    returns (log: seq<Action>, next: DirCell?, ghost rest: seq<DirCell>)
    requires Linked(current, cells) && log0 + Remaining(Walk(View(cells), Opening)) == all
    modifies current
    ensures Linked(next, rest) && current !in rest && (current.freed <==> current.node.Dir? && current.node.readable)
    ensures forall cell :: cell in rest ==> cell in cells || fresh(cell)
    ensures log + Remaining(Walk(View(rest), Head)) == all && MkdirsOf(log) == MkdirsOf(log0)
    ensures WalkMeasure(Walk(View(rest), Head)) < WalkMeasure(Walk(View(cells), Opening))
  {
    hide Remaining, WalkMeasure, Linked, Follow, Advance, Emitted, View, After, MkdirsOf;
    LinkedTail(current, cells);
    AfterOpening(View(cells));
    assert View(cells)[0].node == current.node;
    ghost var w := Follow(log0, Walk(View(cells), Opening), all);
    if !Opens(current.Found()) {
      log, next, rest := log0, current.Next(), cells[1..];
      InTail(cells);
      return;
    }
    ghost var cells';
    log, cells' := ReadDir(current, cells, log0, w, all);
    AfterReading(View(cells'));
    w := Follow(log, Walk(View(cells'), Reading([])), all);
    LinkedTail(current, cells');
    InTail(cells');
    next, rest := current.Next(), cells'[1..];
    current.Free();
  }

  lemma InTail(cells: seq<DirCell>)
    requires cells != []
    ensures forall cell :: cell in cells[1..] ==> cell in cells
  {
  }

  // One round: mkdir first.
  method Process(current: DirCell, ghost cells: seq<DirCell>, log0: seq<Action>, ghost all: seq<Action>)
    returns (log: seq<Action>, next: DirCell?, ghost rest: seq<DirCell>)
    requires Linked(current, cells) && log0 + Remaining(Walk(View(cells), Head)) == all
    modifies current
    ensures Linked(next, rest) && current !in rest && (current.freed <==> current.node.Dir? && current.node.readable)
    ensures forall cell :: cell in rest ==> cell in cells || fresh(cell)
    ensures log + Remaining(Walk(View(rest), Head)) == all && MkdirsOf(log) == MkdirsOf(log0) + [current.dest]
    ensures WalkMeasure(Walk(View(rest), Head)) < WalkMeasure(Walk(View(cells), Head))
  {
    LinkedTail(current, cells);
    hide Remaining, WalkMeasure, MkdirsOf;
    ghost var w := Follow(log0, Walk(View(cells), Head), all);
    MkdirsMore(log0, Mkdir(current.dest));
    log := log0 + [Mkdir(current.Dest())];
    assert w == Walk(View(cells), Opening);
    hide View, Linked;
    log, next, rest := OpenAndRead(current, cells, log, all);
  }

  lemma Alone(cell: DirCell)
    requires cell.next == null && !cell.freed
    ensures Linked(cell, [cell]) && View([cell]) == [DirNode(cell.src, cell.dest, cell.node)]
  {
  }

  lemma NoneVisited()
    ensures Dests([]) == MkdirsOf([])
  {
  }

  lemma Opened(cells: seq<DirCell>, src: string, dest: string, tree: Node)
    requires View(cells) == [DirNode(src, dest, tree)]
    ensures [] + Remaining(Walk(View(cells), Head)) == Visit(src, dest, tree)
  {
    assert Remaining(Start(src, dest, tree)) == Visit(src, dest, tree) + [];
  }

  lemma Exhausted(cells: seq<DirCell>, log: seq<Action>, all: seq<Action>)
    requires Linked(null, cells) && log + Remaining(Walk(View(cells), Head)) == all
    ensures log == all
  {
  }

  // The loop over the list performs the actions of the recursive walk, in its order,
  // and ends.  Queueing a pair is an entry of the log; how the ring takes it is the
  // business of the protocol.  Of the cells, one for each directory made, exactly those
  // whose directories could be opened have been freed.
  method Traverse(src: string, dest: string, tree: Node) returns (log: seq<Action>, ghost visited: seq<DirCell>)
    ensures log == Visit(src, dest, tree)
    ensures Dests(visited) == MkdirsOf(log)
    ensures forall cell :: cell in visited ==> (cell.freed <==> cell.node.Dir? && cell.node.readable)
  {
    hide Remaining, WalkMeasure, Linked, Visit, View, Dests, MkdirsOf;
    log, visited := [], [];
    ghost var all := Visit(src, dest, tree);
    var current: DirCell? := new DirCell(src, dest, tree, null);
    ghost var cells: seq<DirCell> := [current];
    Alone(current);
    Opened(cells, src, dest, tree);
    NoneVisited();
    while current != null
      invariant Linked(current, cells) && forall cell :: cell in cells ==> fresh(cell) && cell !in visited
      invariant log + Remaining(Walk(View(cells), Head)) == all && Dests(visited) == MkdirsOf(log)
      invariant forall cell :: cell in visited ==> fresh(cell) && (cell.freed <==> cell.node.Dir? && cell.node.readable)
      decreases WalkMeasure(Walk(View(cells), Head))
    {
      LinkedTail(current, cells);
      ghost var rest;
      var next;
      log, next, rest := Process(current, cells, log, all);
      DestsMore(visited, current);
      visited := visited + [current];
      assert forall cell :: cell in rest ==> cell !in visited;
      current, cells := next, rest;
    }
    Exhausted(cells, log, all);
  }
}
