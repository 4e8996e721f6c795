// The bounded ring of the shared Buffer: `tasks`, `in`, `out`, `count`, `buffSize`.
module Ring {
  import opened Walk

  // (i + 1) % buffSize
  function Succ(i: nat, cap: nat): nat
    requires cap > 0
  {
    (i + 1) % cap
  }

  // The slots from `out` on, read circularly, hold the queue q, and `inn` is just
  // behind its last element.
  predicate Matches(slots: seq<Task>, out: nat, inn: nat, q: seq<Task>) {
    && |slots| > 0 && |q| <= |slots| && out < |slots|
    && inn == (out + |q|) % |slots|
    && forall k :: 0 <= k < |q| ==> slots[(out + k) % |slots|] == q[k]
  }

  lemma Wrap(x: nat, cap: nat)
    requires 0 < cap && x < 2 * cap
    ensures x % cap == if x < cap then x else x - cap
  {
    if x >= cap {
      assert x == cap + (x - cap);
    }
  }

  // Storing at `inn` does not disturb the queue while it is not full.
  lemma StoreKeeps(slots: seq<Task>, out: nat, inn: nat, q: seq<Task>, t: Task)
    requires Matches(slots, out, inn, q) && |q| < |slots|
    ensures inn < |slots| && Matches(slots[inn := t], out, inn, q)
  {
    var n := |slots|;
    Wrap(out + |q|, n);
    forall k | 0 <= k < |q|
      ensures slots[inn := t][(out + k) % n] == q[k]
    {
      Wrap(out + k, n);
    }
  }

  lemma PushMatches(slots: seq<Task>, out: nat, inn: nat, q: seq<Task>, t: Task)
    requires Matches(slots, out, inn, q) && |q| < |slots| && inn < |slots| && slots[inn] == t
    ensures Matches(slots, out, Succ(inn, |slots|), q + [t])
  {
    var n := |slots|;
    Wrap(out + |q|, n);
    Wrap(inn + 1, n);
    Wrap(out + |q| + 1, n);
  }

  lemma PopMatches(slots: seq<Task>, out: nat, inn: nat, q: seq<Task>)
    requires Matches(slots, out, inn, q) && q != []
    ensures slots[out] == q[0]
    ensures Matches(slots, Succ(out, |slots|), inn, q[1..])
  {
    var n := |slots|;
    Wrap(out, n);
    assert slots[(out + 0) % n] == q[0];
    Wrap(out + 1, n);
    var out' := Succ(out, n);
    Shift(out, |q| - 1, n);
    forall k | 0 <= k < |q| - 1
      ensures slots[(out' + k) % n] == q[1..][k]
    {
      Shift(out, k, n);
      assert q[1..][k] == q[k + 1];
    }
  }

  lemma Shift(out: nat, k: nat, n: nat)
    requires 0 < n && out < n && k < n
    ensures (Succ(out, n) + k) % n == (out + (k + 1)) % n
  {
    Wrap(out + 1, n);
    Wrap(Succ(out, n) + k, n);
    Wrap(out + (k + 1), n);
  }

  // The Buffer struct of the program, with its array of slots.
  class Buffer {
    var tasks: array<Task>
    var inn: nat
    var out: nat
    var count: nat

    ghost predicate Valid()
      reads this, tasks
    {
      && tasks.Length > 0 && count <= tasks.Length && out < tasks.Length
      && inn == (out + count) % tasks.Length
    }

    // The queued tasks, oldest first.
    ghost function Contents(): (q: seq<Task>)
      requires Valid()
      reads this, tasks
      ensures Matches(tasks[..], out, inn, q) && |q| == count
    {
      seq(count, k requires 0 <= k reads this, tasks requires tasks.Length > 0 => tasks[(out + k) % tasks.Length])
    }

    constructor (size: nat, filler: Task)
      requires size > 0
      ensures Valid() && fresh(tasks) && tasks.Length == size && Contents() == []
    {
      tasks := new Task[size](_ => filler);
      inn, out, count := 0, 0, 0;
    }

    // The manager's statements under the lock, after it has waited for room.
    method Store(t: Task)
      requires Valid() && count < tasks.Length
      modifies this, tasks
      ensures Valid() && tasks == old(tasks)
      ensures Contents() == old(Contents()) + [t]
    {
      ghost var q := Contents();
      StoreKeeps(tasks[..], out, inn, q, t);
      tasks[inn] := t;
      assert tasks[..] == old(tasks[..])[inn := t];
      PushMatches(tasks[..], out, inn, q, t);
      inn := (inn + 1) % tasks.Length;
      count := count + 1;
      Same(tasks[..], out, inn, q + [t], Contents());
    }

    // The worker's statements under the lock, after it has seen count > 0.
    method Take() returns (t: Task)
      requires Valid() && count > 0
      modifies this
      ensures Valid() && tasks == old(tasks)
      ensures [t] + Contents() == old(Contents())
    {
      ghost var q := Contents();
      PopMatches(tasks[..], out, inn, q);
      t := tasks[out];
      out := (out + 1) % tasks.Length;
      count := count - 1;
      Same(tasks[..], out, inn, q[1..], Contents());
    }
  }

  // A ring determines the queue it holds.
  lemma Same(slots: seq<Task>, out: nat, inn: nat, q: seq<Task>, r: seq<Task>)
    requires Matches(slots, out, inn, q) && Matches(slots, out, inn, r) && |q| == |r|
    ensures q == r
  {
    forall k | 0 <= k < |q| ensures q[k] == r[k] {
      assert slots[(out + k) % |slots|] == q[k];
    }
  }
}
