// The shop's two linked queues as they are in memory: order ids between the threads, and
// messages for the sender.
module Queues {

  datatype Option<+T> = None | Some(value: T)

  class Cell<T> {
    const data: T
    var next: Cell?<T>
    var freed: bool

    constructor (data: T)
      ensures this.data == data && next == null && !freed
    {
      this.data, next, freed := data, null, false;
    }

    // Following the link of a node that has been freed is an error.
    function Next(): Cell?<T>
      requires !freed
      reads this
    {
      next
    }

    // free(): at most once.
    method Free()
      requires !freed
      modifies this`freed
      ensures freed
    {
      freed := true;
    }
  }

  ghost function After<T>(cells: seq<Cell<T>>, i: nat): Cell?<T> {
    if i + 1 < |cells| then cells[i + 1] else null
  }

  // The cells from front to rear: nothing else is reachable, there is no cycle, none has
  // been freed, and the two ends are null together.
  ghost predicate Chain<T>(front: Cell?<T>, rear: Cell?<T>, cells: seq<Cell<T>>)
    reads cells
  {
    && front == (if cells == [] then null else cells[0])
    && rear == (if cells == [] then null else cells[|cells| - 1])
    && (forall i: nat {:trigger cells[i].next} :: i < |cells| ==> cells[i].next == After(cells, i))
    && (forall i: nat :: i < |cells| ==> !cells[i].freed)
    && (forall i, j :: 0 <= i < j < |cells| ==> cells[i] != cells[j])
  }

  ghost function Values<T>(cells: seq<Cell<T>>): (values: seq<T>)
    ensures |values| == |cells| && forall i :: 0 <= i < |cells| ==> values[i] == cells[i].data
  {
    seq(|cells|, i requires 0 <= i < |cells| => cells[i].data)
  }

  // What a walk along `next` from a cell meets, after at most n cells.
  ghost function Walked<T>(cell: Cell?<T>, n: nat, all: set<object>): seq<Cell<T>>
    reads all
  {
    if cell == null || n == 0 || cell !in all then [] else [cell] + Walked(cell.next, n - 1, all)
  }

  // Following `next` from the front meets exactly the chain, in order, and then null.
  lemma {:induction false} ChainIsWhatIsReached<T>(front: Cell?<T>, rear: Cell?<T>, cells: seq<Cell<T>>, n: nat,
                                                   all: set<object>)
    requires Chain(front, rear, cells) && n >= |cells| && forall cell :: cell in cells ==> cell in all
    ensures Walked(front, n, all) == cells
  {
    if cells == [] {
      assert front == null;
    } else {
      ChainTail(front, rear, cells);
      ChainIsWhatIsReached(front.next, if |cells| == 1 then null else rear, cells[1..], n - 1, all);
    }
  }

  lemma ChainTail<T>(front: Cell?<T>, rear: Cell?<T>, cells: seq<Cell<T>>)
    requires Chain(front, rear, cells) && cells != []
    ensures Chain(cells[0].next, if |cells| == 1 then null else rear, cells[1..])
    ensures Values(cells[1..]) == Values(cells)[1..] && cells[0] !in cells[1..]
    ensures front == cells[0] && !front.freed && (front.next == null <==> |cells| == 1)
  {
    var rest := cells[1..];
    forall i: nat | i < |rest|
      ensures !rest[i].freed && rest[i].next == After(rest, i)
    {
      assert rest[i] == cells[i + 1] && cells[i + 1].next == After(cells, i + 1);
    }
  }

  // The chain but for the link out of its last cell, which goes to the added cell.
  lemma ChainAppend<T>(front: Cell?<T>, cells: seq<Cell<T>>, added: Cell<T>)
    requires front == (cells + [added])[0] && !added.freed && added.next == null && added !in cells
    requires forall i: nat {:trigger cells[i].next} :: i < |cells| ==> cells[i].next == After(cells + [added], i)
    requires forall i: nat :: i < |cells| ==> !cells[i].freed
    requires forall i, j :: 0 <= i < j < |cells| ==> cells[i] != cells[j]
    ensures Chain(front, added, cells + [added])
    ensures Values(cells + [added]) == Values(cells) + [added.data]
  {
  }

  // Linking a new cell in behind the rear; the ends themselves are the caller's.
  method Link<T>(front: Cell?<T>, rear: Cell?<T>, added: Cell<T>, ghost cells: seq<Cell<T>>)
    requires Chain(front, rear, cells) && !added.freed && added.next == null && added !in cells
    modifies rear
    ensures Chain(if rear == null then added else front, added, cells + [added])
    ensures Values(cells + [added]) == Values(cells) + [added.data]
  {
    if rear != null {
      rear.next := added;
    }
    ChainAppend(if rear == null then added else front, cells, added);
  }

  lemma EmptyTogether<T>(front: Cell?<T>, rear: Cell?<T>, cells: seq<Cell<T>>)
    requires Chain(front, rear, cells)
    ensures (front == null <==> cells == []) && (rear == null <==> cells == [])
    ensures Values(cells) == [] <==> cells == []
  {
  }

  // Freeing one cell frees no other.
  lemma EachOnce<T>(front: Cell?<T>, rear: Cell?<T>, cells: seq<Cell<T>>)
    requires Chain(front, rear, cells)
    ensures forall i, j :: 0 <= i < j < |cells| ==> cells[i] != cells[j]
  {
  }

  lemma RearInside<T>(front: Cell?<T>, rear: Cell?<T>, cells: seq<Cell<T>>)
    requires Chain(front, rear, cells)
    ensures rear == null || rear in cells
  {
  }

  lemma Assoc<T>(a: seq<T>, b: seq<T>, c: seq<T>)
    ensures a + (b + c) == (a + b) + c
  {
  }

  lemma HeadLeaves<T>(left: seq<T>, q: seq<T>)
    requires q != []
    ensures left + q == (left + [q[0]]) + q[1..] && q == [q[0]] + q[1..]
  {
  }

  // ---------------------------------------------------------------- what a client sees

  datatype Op = Put(value: int) | Get

  // What one call answers, and what it leaves of the contents q. None is the answer of an
  // empty queue, on which the program exits.
  function Answer(q: seq<int>, op: Op): seq<Option<int>> {
    match op
    case Put(_) => []
    case Get => if q == [] then [None] else [Some(q[0])]
  }

  function Left(q: seq<int>, op: Op): seq<int> {
    match op
    case Put(x) => q + [x]
    case Get => if q == [] then [] else q[1..]
  }

  // The answers to a sequence of calls, and what they leave.
  function Answers(q: seq<int>, ops: seq<Op>): seq<Option<int>>
    decreases |ops|
  {
    if ops == [] then [] else Answer(q, ops[0]) + Answers(Left(q, ops[0]), ops[1..])
  }

  function Leaves(q: seq<int>, ops: seq<Op>): seq<int>
    decreases |ops|
  {
    if ops == [] then q else Leaves(Left(q, ops[0]), ops[1..])
  }

  // The values put in, and those among the answers.
  function Entered(ops: seq<Op>): seq<int> {
    if ops == [] then [] else (if ops[0].Put? then [ops[0].value] else []) + Entered(ops[1..])
  }

  function Received(answers: seq<Option<int>>): seq<int> {
    if answers == [] then [] else (if answers[0].Some? then [answers[0].value] else []) + Received(answers[1..])
  }

  function Gets(ops: seq<Op>): nat {
    if ops == [] then 0 else (if ops[0].Get? then 1 else 0) + Gets(ops[1..])
  }

  lemma OneCall(q: seq<int>, op: Op, more: seq<Option<int>>)
    ensures Received(Answer(q, op)) + Left(q, op) == q + Entered([op])
    ensures Received(Answer(q, op) + more) == Received(Answer(q, op)) + Received(more)
    ensures |Answer(q, op)| == if op.Get? then 1 else 0
  {
    match op
    case Put(x) =>
      assert [] + more == more;
      assert [] + (q + [x]) == q + [x];
    case Get =>
      assert (Answer(q, op) + more)[1..] == more;
      assert Received([]) == [] && q + [] == q;
  }

  lemma EnteredMore(ops: seq<Op>)
    requires ops != []
    ensures Entered(ops) == Entered([ops[0]]) + Entered(ops[1..])
  {
  }

  // First in, first out, for every sequence of calls; and every Get has its answer.
  lemma {:induction false} FirstInFirstOut(q: seq<int>, ops: seq<Op>)
    ensures Received(Answers(q, ops)) + Leaves(q, ops) == q + Entered(ops)
    ensures |Answers(q, ops)| == Gets(ops)
    decreases |ops|
  {
    if ops == [] {
      assert q + Entered(ops) == q;
    } else {
      var now, answers := Left(q, ops[0]), Answers(Left(q, ops[0]), ops[1..]);
      FirstInFirstOut(now, ops[1..]);
      OneCall(q, ops[0], answers);
      EnteredMore(ops);
      hide Received, Entered, Answer, Left;
      Assoc(Received(Answer(q, ops[0])), Received(answers), Leaves(q, ops));
      Assoc(Received(Answer(q, ops[0])), now, Entered(ops[1..]));
      Assoc(q, Entered([ops[0]]), Entered(ops[1..]));
    }
  }

  // ---------------------------------------------------------------- queue.h

  class Queue {
    var front: Cell?<int>
    var rear: Cell?<int>
    var size: int
    ghost var cells: seq<Cell<int>>
    ghost var entered: seq<int>  // every value ever enqueued, in order
    ghost var left: seq<int>     // every value ever dequeued, in order

    // Whatever the calls so far have been, values leave in the order they entered.
    ghost predicate Valid()
      reads this, cells
    {
      Chain(front, rear, cells) && size == |cells| && entered == left + Values(cells)
    }

    ghost function Contents(): (q: seq<int>)
      reads this, cells
      requires Valid()
      ensures |q| == size && entered == left + q
    {
      Values(cells)
    }

    constructor ()
      ensures Valid() && Contents() == [] && cells == [] && entered == []
    {
      front, rear, size, cells, entered, left := null, null, 0, [], [], [];
    }

    method IsEmpty() returns (empty: bool)
      requires Valid()
      ensures empty <==> Contents() == []
    {
      empty := front == null;
    }

    method Enqueue(value: int)
      requires Valid()
      modifies this, cells
      ensures Valid() && Contents() == old(Contents()) + [value]
      ensures entered == old(entered) + [value] && left == old(left)
      ensures |cells| == |old(cells)| + 1 && old(cells) <= cells && fresh(cells[|old(cells)|])
    {
      hide Values, Chain;
      var newNode := new Cell<int>(value);
      Assoc(left, Values(cells), [value]);
      RearInside(front, rear, cells);
      Link(front, rear, newNode, cells);
      front, rear := if rear == null then newNode else front, newNode;
      cells, entered := cells + [newNode], entered + [value];
      size := size + 1;
    }

    // None: the program prints an error and exits.
    method Dequeue() returns (data: Option<int>)
      requires Valid()
      modifies this, cells
      ensures Valid() && (data == None <==> old(Contents()) == [])
      ensures data == None ==> Contents() == old(Contents()) && cells == old(cells) && left == old(left)
      ensures data.Some? ==> old(Contents()) == [data.value] + Contents() && left == old(left) + [data.value]
      ensures entered == old(entered)
      ensures data.Some? ==> cells == old(cells)[1..] && old(cells)[0].freed
    {
      hide Chain, Values, After;
      EmptyTogether(front, rear, cells);
      if front == null {
        return None;
      }
      ChainTail(front, rear, cells);
      HeadLeaves(left, Values(cells));
      var temp := front;
      data := Some(temp.data);
      front := front.Next();
      if front == null {
        rear := null;
      }
      cells, left := cells[1..], left + [temp.data];
      temp.Free();
      size := size - 1;
    }

    // The clean-up loop: every node is freed and the queue is as new.
    method Drain()
      requires Valid()
      modifies this, cells
      ensures Valid() && Contents() == [] && front == null && rear == null && size == 0
      ensures left == entered == old(entered)
      ensures forall cell :: cell in old(cells) ==> cell.freed
    {
      hide Chain, Values, After;
      ghost var dropped := 0;
      EachOnce(front, rear, cells);
      while front != null
        invariant Valid() && entered == old(entered) && 0 <= dropped <= |old(cells)| && cells == old(cells)[dropped..]
        invariant forall i :: 0 <= i < dropped ==> old(cells)[i].freed
        decreases |cells|
      {
        EmptyTogether(front, rear, cells);
        var data := Dequeue();
        dropped := dropped + 1;
      }
      EmptyTogether(front, rear, cells);
      assert dropped == |old(cells)|;
    }

    // Any sequence of calls.
    method Perform(ops: seq<Op>) returns (answers: seq<Option<int>>)
      requires Valid()
      modifies this, cells
      ensures Valid() && forall k :: 0 <= k < |cells| ==> cells[k] in old(cells) || fresh(cells[k])
      ensures answers == Answers(old(Contents()), ops) && Contents() == Leaves(old(Contents()), ops)
    {
      hide Chain, Values, After;
      answers := [];
      ghost var q := Contents();
      var i := 0;
      assert ops[0..] == ops && answers + Answers(q, ops) == Answers(q, ops);
      while i < |ops|
        invariant 0 <= i <= |ops| && Valid()
        invariant forall k :: 0 <= k < |cells| ==> cells[k] in old(cells) || fresh(cells[k])
        invariant Answers(q, ops) == answers + Answers(Contents(), ops[i..])
        invariant Leaves(q, ops) == Leaves(Contents(), ops[i..])
      {
        assert ops[i..][0] == ops[i] && ops[i..][1..] == ops[i + 1..];
        Assoc(answers, Answer(Contents(), ops[i]), Answers(Left(Contents(), ops[i]), ops[i + 1..]));
        var answer := Call(ops[i]);
        answers := answers + answer;
        i := i + 1;
      }
      assert ops[i..] == [];
    }

    // One call of either kind.
    method Call(op: Op) returns (answer: seq<Option<int>>)
      requires Valid()
      modifies this, cells
      ensures Valid() && forall k :: 0 <= k < |cells| ==> cells[k] in old(cells) || fresh(cells[k])
      ensures answer == Answer(old(Contents()), op) && Contents() == Left(old(Contents()), op)
    {
      hide Chain, Values, After;
      match op {
        case Put(x) =>
          Enqueue(x);
          answer := [];
        case Get =>
          var data := Dequeue();
          answer := [data];
      }
    }
  }

  // Any sequence of calls on a new queue: what comes out, followed by what is still in,
  // is what went in.
  method Use(ops: seq<Op>) returns (q: Queue, answers: seq<Option<int>>)
    ensures q.Valid() && |answers| == Gets(ops) && answers == Answers([], ops)
    ensures Received(answers) + q.Contents() == Entered(ops)
  {
    q := new Queue();
    answers := q.Perform(ops);
    FirstInFirstOut([], ops);
    assert [] + Entered(ops) == Entered(ops);
  }

  // ---------------------------------------------------------------- messageQueue.h

  // A string on the heap, as strdup() makes it.
  class Text {
    const chars: string
    var freed: bool

    constructor (chars: string)
      ensures this.chars == chars && !freed
    {
      this.chars, freed := chars, false;
    }

    method Free()
      requires !freed
      modifies this`freed
      ensures freed
    {
      freed := true;
    }
  }

  ghost function Messages(texts: seq<Text>): (messages: seq<string>)
    ensures |messages| == |texts| && forall i :: 0 <= i < |texts| ==> messages[i] == texts[i].chars
  {
    seq(|texts|, i requires 0 <= i < |texts| => texts[i].chars)
  }

  // Different strings, none of which has been freed.
  ghost predicate Owned(texts: seq<Text>)
    reads texts
  {
    && (forall i: nat :: i < |texts| ==> !texts[i].freed)
    && (forall i, j :: 0 <= i < j < |texts| ==> texts[i] != texts[j])
  }

  lemma OwnedTail(texts: seq<Text>)
    requires Owned(texts) && texts != []
    ensures Owned(texts[1..]) && texts[0] !in texts[1..] && !texts[0].freed
    ensures Messages(texts) == [texts[0].chars] + Messages(texts[1..])
  {
  }

  lemma OwnedMore(texts: seq<Text>, text: Text)
    requires Owned(texts) && !text.freed && text !in texts
    ensures Owned(texts + [text]) && Messages(texts + [text]) == Messages(texts) + [text.chars]
  {
  }

  class MessageQueue {
    var front: Cell?<Text>
    var rear: Cell?<Text>
    var locked: bool
    ghost var cells: seq<Cell<Text>>
    ghost var texts: seq<Text>  // the strings of the cells

    ghost predicate Valid()
      reads this, cells, texts
    {
      Chain(front, rear, cells) && texts == Values(cells) && Owned(texts)
    }

    ghost function Contents(): (q: seq<string>)
      reads this
    {
      Messages(texts)
    }

    constructor ()
      ensures Valid() && Contents() == [] && cells == [] && texts == [] && !locked
    {
      front, rear, locked, cells, texts := null, null, false, [], [];
    }

    // pthread_mutex_lock() of a free mutex, and its release.
    method Lock()
      requires !locked
      modifies this`locked
      ensures locked
    {
      locked := true;
    }

    method Unlock()
      requires locked
      modifies this`locked
      ensures !locked
    {
      locked := false;
    }

    // The message is copied, so the caller may go on using its buffer.
    method Enqueue(message: string)
      requires Valid() && !locked
      modifies this, cells
      ensures Valid() && !locked && Contents() == old(Contents()) + [message]
      ensures |cells| == |old(cells)| + 1 && old(cells) <= cells && fresh(cells[|old(cells)|])
      ensures |texts| == |old(texts)| + 1 && old(texts) <= texts && fresh(texts[|old(texts)|])
    {
      Lock();
      Append(message);
      Unlock();
    }

    // With the mutex held.
    method Append(message: string)
      requires Valid()
      modifies `front, `rear, `cells, `texts, cells
      ensures Valid() && Contents() == old(Contents()) + [message]
      ensures |cells| == |old(cells)| + 1 && old(cells) <= cells && fresh(cells[|old(cells)|])
      ensures |texts| == |old(texts)| + 1 && old(texts) <= texts && fresh(texts[|old(texts)|])
    {
      hide Chain, Values, After, Messages, Owned;
      var copy := new Text(message);
      var newNode := new Cell<Text>(copy);
      OwnedMore(texts, copy);
      RearInside(front, rear, cells);
      Link(front, rear, newNode, cells);
      front, rear := if rear == null then newNode else front, newNode;
      cells, texts := cells + [newNode], texts + [copy];
    }

    // None: there is no message. The mutex is released either way, and the string is now
    // the caller's.
    method Dequeue() returns (message: Option<Text>)
      requires Valid() && !locked
      modifies this, cells
      ensures Valid() && !locked && (message == None <==> old(Contents()) == [])
      ensures message == None ==> Contents() == old(Contents()) && cells == old(cells) && texts == old(texts)
      ensures message.Some? ==> old(Contents()) == [message.value.chars] + Contents()
      ensures message.Some? ==> !message.value.freed && message.value !in texts
      ensures message.Some? ==> cells == old(cells)[1..] && old(cells)[0].freed && texts == old(texts)[1..]
    {
      hide Chain, Values, After, Owned, Messages;
      EmptyTogether(front, rear, cells);
      Lock();
      if front == null {
        Unlock();
        return None;
      }
      OwnedTail(texts);
      var text := RemoveFirst();
      message := Some(text);
      Unlock();
    }

    // With the mutex held, and a message there.
    method RemoveFirst() returns (text: Text)
      requires Valid() && front != null
      modifies `front, `rear, `cells, `texts, cells
      ensures Valid() && cells == old(cells)[1..] && old(cells)[0].freed
      ensures old(texts) != [] && text == old(texts)[0] && texts == old(texts)[1..]
    {
      hide Chain, Values, After, Owned, Messages;
      EmptyTogether(front, rear, cells);
      ChainTail(front, rear, cells);
      OwnedTail(texts);
      var temp := front;
      text := temp.data;
      front := front.Next();
      if front == null {
        rear := null;
      }
      cells, texts := cells[1..], texts[1..];
      temp.Free();
    }

    // Walks along the nodes, freeing the string and then the node of each after its link
    // has been read, and resets the ends only afterwards.
    method Clear()
      requires Valid() && !locked
      modifies this, cells, texts
      ensures Valid() && !locked && Contents() == [] && front == null && rear == null
      ensures forall cell :: cell in old(cells) ==> cell.freed
      ensures forall text :: text in old(texts) ==> text.freed
    {
      hide Chain, Values, Owned, Messages, FreedUpTo;
      NoneFreed(front, rear, cells, texts);
      Lock();
      var current := front;
      ghost var all, strings, i := cells, texts, 0;
      while current != null
        invariant 0 <= i <= |all| && locked && FreedUpTo(all, strings, i)
        invariant current == if i < |all| then all[i] else null
        decreases |all| - i
      {
        current := FreeOne(current, all, strings, i);
        i := i + 1;
      }
      AllFreed(all, strings);
      front, rear, cells, texts := null, null, [], [];
      Nothing();
      Unlock();
    }
  }

  // The first i cells and their strings have been freed, the others not; the links are
  // still there.
  ghost predicate FreedUpTo(cells: seq<Cell<Text>>, texts: seq<Text>, i: nat)
    reads cells, texts
  {
    && |texts| == |cells|
    && (forall k: nat {:trigger cells[k].next} :: k < |cells| ==> cells[k].next == After(cells, k))
    && (forall k: nat :: k < |cells| ==> cells[k].freed == (k < i))
    && (forall k: nat :: k < |cells| ==> cells[k].data == texts[k] && texts[k].freed == (k < i))
    && (forall a, b :: 0 <= a < b < |cells| ==> cells[a] != cells[b] && texts[a] != texts[b])
  }

  lemma NoneFreed(front: Cell?<Text>, rear: Cell?<Text>, cells: seq<Cell<Text>>, texts: seq<Text>)
    requires Chain(front, rear, cells) && texts == Values(cells) && Owned(texts)
    ensures FreedUpTo(cells, texts, 0) && front == if cells == [] then null else cells[0]
  {
  }

  lemma AllFreed(cells: seq<Cell<Text>>, texts: seq<Text>)
    requires FreedUpTo(cells, texts, |cells|)
    ensures forall cell :: cell in cells ==> cell.freed
    ensures forall text :: text in texts ==> text.freed
  {
  }

  lemma Nothing()
    ensures Chain<Text>(null, null, []) && Values<Text>([]) == [] && Owned([]) && Messages([]) == []
  {
  }

  // One round of the loop.
  method FreeOne(current: Cell<Text>, ghost cells: seq<Cell<Text>>, ghost texts: seq<Text>, ghost i: nat)
    returns (next: Cell?<Text>)
    requires FreedUpTo(cells, texts, i) && i < |cells| && current == cells[i]
    modifies current, current.data
    ensures FreedUpTo(cells, texts, i + 1) && next == After(cells, i)
  {
    next := current.Next();
    current.data.Free();
    current.Free();
  }
}
