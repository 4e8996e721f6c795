// The source tree the copier walks, and the path strings it builds on the way.
module SourceTree {

  newtype byte = x: int | 0 <= x < 256

  // What stat() and opendir() find at a path.  Only regular files and directories
  // matter to the manager; everything else is passed over.
  datatype Node =
    | File(content: seq<byte>)
    | Dir(readable: bool, entries: seq<Entry>)  // entries in readdir() order
    | Fifo
    | Other       // device, socket
    | Unstatable  // stat() fails, as on a dangling link

  datatype Entry = Entry(name: string, node: Node)

  datatype Option<+T> = None | Some(value: T)

  predicate Opens(n: Node) {
    n.Dir? && n.readable
  }

  // readdir() also returns "." and "..", which the loop skips.
  predicate Dots(name: string) {
    name == "." || name == ".."
  }

  predicate SlashFree(name: string) {
    '/' !in name
  }

  // File names are slash-free and unique in their directory.
  predicate WellFormed(n: Node)
    decreases n, 1
  {
    n.Dir? ==> WellFormedEntries(n.entries)
  }

  predicate WellFormedEntries(es: seq<Entry>)
    decreases es, 0
  {
    es != [] ==>
      && SlashFree(es[0].name)
      && WellFormed(es[0].node)
      && (forall i :: 1 <= i < |es| ==> es[i].name != es[0].name)
      && WellFormedEntries(es[1..])
  }

  // The string snprintf(..., "%s/%s", dir, name) produces.
  function Child(dir: string, name: string): string {
    dir + "/" + name
  }

  // Everything before the last slash: the directory that must exist before a
  // file or directory of this path can be created.
  function ParentDir(path: string): string {
    if path == "" then ""
    else if path[|path| - 1] == '/' then path[..|path| - 1]
    else ParentDir(path[..|path| - 1])
  }

  function BaseName(path: string): string {
    if path == "" || path[|path| - 1] == '/' then ""
    else BaseName(path[..|path| - 1]) + [path[|path| - 1]]
  }

  lemma {:induction false} ChildSplits(dir: string, name: string)
    requires SlashFree(name)
    ensures ParentDir(Child(dir, name)) == dir
    ensures BaseName(Child(dir, name)) == name
  {
    var p := Child(dir, name);
    if name == "" {
      assert p[..|p| - 1] == dir;
    } else {
      var short := name[..|name| - 1];
      assert p[|p| - 1] == name[|name| - 1] && name[|name| - 1] in name;
      assert p[..|p| - 1] == Child(dir, short);
      ChildSplits(dir, short);
      assert name == short + [name[|name| - 1]];
    }
  }

  // A relative path is the list of names below a root.
  type Rel = seq<string>

  function Render(root: string, rel: Rel): string {
    if rel == [] then root else Child(Render(root, rel[..|rel| - 1]), rel[|rel| - 1])
  }

  predicate AllSlashFree(rel: Rel) {
    forall i :: 0 <= i < |rel| ==> SlashFree(rel[i])
  }

  lemma {:induction false} RenderLonger(root: string, rel: Rel)
    ensures |Render(root, rel)| >= |root| + |rel|
  {
    if rel == [] {
    } else {
      RenderLonger(root, rel[..|rel| - 1]);
    }
  }

  // Distinct relative paths have distinct path strings under one root.
  lemma {:induction false} RenderInjective(root: string, a: Rel, b: Rel)
    requires AllSlashFree(a) && AllSlashFree(b)
    requires Render(root, a) == Render(root, b)
    ensures a == b
    decreases |a|
  {
    RenderLonger(root, a);
    RenderLonger(root, b);
    if a == [] || b == [] {
    } else {
      var a', b' := a[..|a| - 1], b[..|b| - 1];
      ChildSplits(Render(root, a'), a[|a| - 1]);
      ChildSplits(Render(root, b'), b[|b| - 1]);
      RenderInjective(root, a', b');
      assert a == a' + [a[|a| - 1]] && b == b' + [b[|b| - 1]];
    }
  }

  lemma {:induction false} RenderAppend(root: string, a: Rel, b: Rel)
    ensures Render(Render(root, a), b) == Render(root, a + b)
    decreases |b|
  {
    if b == [] {
      assert a + b == a;
    } else {
      var b' := b[..|b| - 1];
      RenderAppend(root, a, b');
      assert (a + b)[..|a + b| - 1] == a + b';
    }
  }

  lemma RenderHead(root: string, name: string, rel: Rel)
    ensures Render(Child(root, name), rel) == Render(root, [name] + rel)
  {
    RenderAppend(root, [name], rel);
    assert Render(root, [name]) == Child(root, name) by {
      assert [name][..0] == [];
    }
  }

  // The node named by a relative path, as path lookup finds it.
  function Resolve(n: Node, rel: Rel): Option<Node>
    decreases |rel|
  {
    if rel == [] then Some(n)
    else if !n.Dir? then None
    else
      match Find(n.entries, rel[0])
      case None => None
      case Some(child) => Resolve(child, rel[1..])
  }

  function Find(es: seq<Entry>, name: string): Option<Node> {
    if es == [] then None
    else if es[0].name == name && !Dots(name) then Some(es[0].node)
    else Find(es[1..], name)
  }

  // The names on the way from n down to m, through directories that can be read, none of
  // them an entry that stands for the directory itself or its parent.
  predicate LeadsTo(n: Node, rel: Rel, m: Node)
    decreases |rel|
  {
    if rel == [] then m == n
    else
      && n.Dir? && n.readable && rel[0] != "." && rel[0] != ".."
      && exists i: nat :: i < |n.entries| && n.entries[i].name == rel[0] && LeadsTo(n.entries[i].node, rel[1..], m)
  }

  // Every entry is found but for those two.
  lemma {:induction false} FindEntry(es: seq<Entry>, i: nat)
    requires WellFormedEntries(es) && i < |es| && es[i].name != "." && es[i].name != ".."
    ensures Find(es, es[i].name) == Some(es[i].node)
    ensures SlashFree(es[i].name) && WellFormed(es[i].node)
  {
    if i == 0 {
    } else {
      FindEntry(es[1..], i - 1);
    }
  }

  lemma {:induction false} FindNothing(es: seq<Entry>, name: string)
    requires name == "." || name == ".." || forall i :: 0 <= i < |es| ==> es[i].name != name
    ensures Find(es, name) == None
  {
    if es == [] {
    } else {
      FindNothing(es[1..], name);
    }
  }

  // Looking the names up one after the other leads to the same node.
  lemma {:induction false} LeadsResolve(n: Node, rel: Rel, m: Node)
    requires WellFormed(n) && LeadsTo(n, rel, m)
    ensures Resolve(n, rel) == Some(m) && AllSlashFree(rel)
    decreases |rel|
  {
    if rel == [] {
    } else {
      var i: nat :| i < |n.entries| && n.entries[i].name == rel[0] && LeadsTo(n.entries[i].node, rel[1..], m);
      FindEntry(n.entries, i);
      LeadsResolve(n.entries[i].node, rel[1..], m);
      assert rel == [rel[0]] + rel[1..];
    }
  }

  lemma {:induction false} DistinctNames(es: seq<Entry>, i: nat, j: nat)
    requires WellFormedEntries(es) && i < j < |es|
    ensures es[i].name != es[j].name
  {
    if i == 0 {
    } else {
      DistinctNames(es[1..], i - 1, j - 1);
    }
  }

  // A path string is looked up in the tree mounted at root.
  ghost function Lookup(n: Node, root: string, path: string): Option<Node> {
    if exists rel :: AllSlashFree(rel) && Render(root, rel) == path then
      var rel :| AllSlashFree(rel) && Render(root, rel) == path;
      Resolve(n, rel)
    else None
  }

  lemma LookupRender(n: Node, root: string, rel: Rel)
    requires AllSlashFree(rel)
    ensures Lookup(n, root, Render(root, rel)) == Resolve(n, rel)
  {
    forall other | AllSlashFree(other) && Render(root, other) == Render(root, rel)
      ensures other == rel
    {
      RenderInjective(root, other, rel);
    }
  }
}
