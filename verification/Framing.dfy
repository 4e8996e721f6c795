// The client's listener: bytes arrive in chunks of any size, lines are cut out of the
// buffer in place and what is left is moved to its front.
module Framing {

  const NL: char := '\n'

  // ---------------------------------------------------------------- reference

  // What follows the last newline.
  function Tail(s: string): string {
    var n := |s|;
    if n == 0 || s[n - 1] == NL then [] else Tail(s[..n - 1]) + [s[n - 1]]
  }

  // The lines that have ended, without their newlines.
  function Lines(s: string): seq<string> {
    var n := |s|;
    if n == 0 then []
    else if s[n - 1] == NL then Lines(s[..n - 1]) + [Tail(s[..n - 1])]
    else Lines(s[..n - 1])
  }

  // Each line followed by its newline.
  function Joined(lines: seq<string>): string {
    if lines == [] then [] else Joined(lines[..|lines| - 1]) + lines[|lines| - 1] + [NL]
  }

  predicate Plain(s: string) {
    NL !in s
  }

  // One more character.
  lemma Grown(s: string, ch: char)
    ensures Tail(s + [ch]) == if ch == NL then [] else Tail(s) + [ch]
    ensures Lines(s + [ch]) == if ch == NL then Lines(s) + [Tail(s)] else Lines(s)
  {
    assert (s + [ch])[..|s + [ch]| - 1] == s;
  }

  lemma GrownAt(s: string, i: nat)
    requires i < |s|
    ensures Tail(s[..i + 1]) == if s[i] == NL then [] else Tail(s[..i]) + [s[i]]
    ensures Lines(s[..i + 1]) == if s[i] == NL then Lines(s[..i]) + [Tail(s[..i])] else Lines(s[..i])
  {
    assert s[..i + 1] == s[..i] + [s[i]];
    Grown(s[..i], s[i]);
  }

  lemma Split(s: string) returns (front: string, ch: char)
    requires s != []
    ensures s == front + [ch] && |front| == |s| - 1 && (Plain(s) ==> Plain(front) && ch != NL)
  {
    front, ch := s[..|s| - 1], s[|s| - 1];
  }

  lemma Assoc<T>(a: seq<T>, b: seq<T>, c: seq<T>)
    ensures a + (b + c) == (a + b) + c
  {
  }

  lemma NoMore<T>(a: seq<T>)
    ensures a + [] == a
  {
  }

  lemma FromNothing<T>(a: seq<T>)
    ensures [] + a == a
  {
  }

  lemma JoinedMore(lines: seq<string>, line: string)
    ensures Joined(lines + [line]) == Joined(lines) + line + [NL]
  {
    assert (lines + [line])[..|lines + [line]| - 1] == lines;
  }

  // Nothing is lost and nothing is added.
  lemma {:induction false} NothingLost(s: string)
    ensures Joined(Lines(s)) + Tail(s) == s && |Tail(s)| <= |s|
    decreases |s|
  {
    if s == [] {
    } else {
      var front, ch := Split(s);
      var lines, rest := Lines(front), Tail(front);
      NothingLost(front);
      Grown(front, ch);
      hide Lines, Tail, Joined;
      if ch == NL {
        JoinedMore(lines, rest);
        NoMore(s);
      } else {
        Assoc(Joined(lines), rest, [ch]);
      }
    }
  }

  // A newline is where something has been cut, and nowhere else.
  lemma {:induction false} PiecesArePlain(s: string)
    ensures Plain(Tail(s)) && forall line :: line in Lines(s) ==> Plain(line)
    decreases |s|
  {
    if s == [] {
    } else {
      var front, ch := Split(s);
      PiecesArePlain(front);
      Grown(front, ch);
      hide Lines, Tail;
    }
  }

  lemma {:induction false} PlainAppends(s: string, t: string)
    requires Plain(t)
    ensures Lines(s + t) == Lines(s) && Tail(s + t) == Tail(s) + t
    decreases |t|
  {
    hide Lines, Tail;
    if t == [] {
      NoMore(s);
      NoMore(Tail(s));
    } else {
      var front, ch := Split(t);
      PlainAppends(s, front);
      Grown(s + front, ch);
      Assoc(s, front, [ch]);
      Assoc(Tail(s), front, [ch]);
    }
  }

  // And there is only one way to cut a text into lines and a rest.
  lemma {:induction false} OnlyOneCut(lines: seq<string>, rest: string)
    requires Plain(rest) && forall line :: line in lines ==> Plain(line)
    ensures Lines(Joined(lines) + rest) == lines && Tail(Joined(lines) + rest) == rest
    decreases |lines|
  {
    hide Lines, Tail;
    PlainAppends(Joined(lines), rest);
    if lines == [] {
      EmptyText();
      FromNothing(rest);
      assert Joined(lines) == [];
    } else {
      var n := |lines| - 1;
      var front, last := lines[..n], lines[n];
      assert lines == front + [last];
      JoinedMore(front, last);
      OnlyOneCut(front, last);
      hide Joined;
      Grown(Joined(front) + last, NL);
      FromNothing(rest);
    }
  }

  lemma EmptyText()
    ensures Lines([]) == [] && Tail([]) == []
  {
  }

  // Cutting can go on from the rest: where a chunk ends does not matter.
  lemma {:induction false} CutInChunks(s: string, chunk: string)
    ensures Lines(s + chunk) == Lines(s) + Lines(Tail(s) + chunk)
    ensures Tail(s + chunk) == Tail(Tail(s) + chunk)
    decreases |chunk|
  {
    hide Lines, Tail;
    if chunk == [] {
      NoMore(s);
      NoMore(Tail(s));
      TailAlone(s);
    } else {
      var front, ch := Split(chunk);
      CutInChunks(s, front);
      Grown(s + front, ch);
      Grown(Tail(s) + front, ch);
      Assoc(s, front, [ch]);
      Assoc(Tail(s), front, [ch]);
      Assoc(Lines(s), Lines(Tail(s) + front), [Tail(s + front)]);
    }
  }

  lemma TailAlone(s: string)
    ensures Lines(s) + Lines(Tail(s)) == Lines(s) && Tail(Tail(s)) == Tail(s)
  {
    PiecesArePlain(s);
    PlainAppends([], Tail(s));
    FromNothing(Tail(s));
  }

  // ---------------------------------------------------------------- how far the buffer reaches

  // The first point at which the unfinished line fills a buffer of this capacity, but for
  // the terminating NUL; the length of the text if there is none.
  function Limit(s: string, capacity: nat, from: nat): (p: nat)
    requires from <= |s|
    ensures from <= p <= |s|
    decreases |s| - from
  {
    if from == |s| || |Tail(s[..from])| + 1 == capacity then from else Limit(s, capacity, from + 1)
  }

  // Every line is short enough to be held together with its newline and a NUL, and the
  // rest with a NUL.
  predicate Fits(s: string, capacity: nat) {
    (forall line :: line in Lines(s) ==> |line| + 2 <= capacity) && |Tail(s)| + 1 <= capacity
  }

  // The buffer has not been full with an unfinished line at any point before p.
  predicate RoomBefore(s: string, capacity: nat, p: nat)
    requires p <= |s|
  {
    forall k :: 0 <= k < p ==> |Tail(s[..k])| + 1 != capacity
  }

  lemma {:induction false} LimitIsFirst(s: string, capacity: nat, from: nat, k: nat)
    requires from <= k <= |s| && k < Limit(s, capacity, from)
    ensures |Tail(s[..k])| + 1 != capacity
    decreases |s| - from
  {
    if k == from {
    } else {
      LimitIsFirst(s, capacity, from + 1, k);
    }
  }

  lemma {:induction false} LimitIs(s: string, capacity: nat, from: nat, p: nat)
    requires from <= p <= |s| && (p == |s| || |Tail(s[..p])| + 1 == capacity)
    requires RoomBefore(s, capacity, p)
    ensures Limit(s, capacity, from) == p
    decreases |s| - from
  {
    if from == p {
    } else {
      LimitIs(s, capacity, from + 1, p);
    }
  }

  lemma {:induction false} FitsSoFar(s: string, capacity: nat, k: nat)
    requires k <= Limit(s, capacity, 0) && capacity > 0
    ensures Fits(s[..k], capacity)
  {
    if k == 0 {
    } else {
      FitsSoFar(s, capacity, k - 1);
      LimitIsFirst(s, capacity, 0, k - 1);
      assert s[..k][..k - 1] == s[..k - 1];
    }
  }

  lemma {:induction false} FitsBefore(s: string, capacity: nat, k: nat)
    requires k < |s| && Fits(s, capacity)
    ensures |Tail(s[..k])| + 1 < capacity
  {
    var n := |s| - 1;
    assert s[..n] == s[..|s| - 1];
    if k == n {
      if s[n] == NL { assert Tail(s[..n]) in Lines(s); }
    } else {
      assert Fits(s[..n], capacity) by {
        if s[n] == NL { assert Tail(s[..n]) in Lines(s); }
      }
      FitsBefore(s[..n], capacity, k);
      assert s[..n][..k] == s[..k];
    }
  }

  // A text gets through the buffer whole if and only if its lines are short enough.
  lemma WholeIffFits(s: string, capacity: nat)
    requires capacity > 0
    ensures Limit(s, capacity, 0) == |s| <==> Fits(s, capacity)
  {
    var p := Limit(s, capacity, 0);
    if p == |s| {
      FitsSoFar(s, capacity, |s|);
      assert s[..|s|] == s;
    } else if Fits(s, capacity) {
      FitsBefore(s, capacity, p);
      LimitStops(s, capacity, 0);
    }
  }

  lemma {:induction false} LimitStops(s: string, capacity: nat, from: nat)
    requires from <= |s| && Limit(s, capacity, from) < |s|
    ensures |Tail(s[..Limit(s, capacity, from)])| + 1 == capacity
    decreases |s| - from
  {
    if |Tail(s[..from])| + 1 == capacity {
    } else {
      LimitStops(s, capacity, from + 1);
    }
  }

  // Receiving no more than there is room for never goes past the limit.
  lemma {:induction false} RoomStopsAtLimit(s: string, capacity: nat, b: nat, e: nat)
    requires b <= e <= |s| && |Tail(s[..b])| + (e - b) + 1 <= capacity && RoomBefore(s, capacity, b)
    ensures RoomBefore(s, capacity, e) && |Tail(s[..e])| <= |Tail(s[..b])| + (e - b)
  {
    if b == e {
    } else {
      RoomStopsAtLimit(s, capacity, b, e - 1);
      assert s[..e][..e - 1] == s[..e - 1];
    }
  }

  lemma NotPast(s: string, capacity: nat, p: nat)
    requires p <= |s| && RoomBefore(s, capacity, p)
    ensures p <= Limit(s, capacity, 0)
  {
    var first := Limit(s, capacity, 0);
    if first < |s| { LimitStops(s, capacity, 0); }
  }

  // Where it goes wrong: a line that leaves no byte free stops the reception there, just
  // short of the capacity, whatever follows.
  lemma LongLineStops(before: string, line: string, rest: string, capacity: nat)
    requires Tail(before) == [] && Fits(before, capacity) && Plain(line) && |line| + 1 >= capacity
    ensures Limit(before + line + rest, capacity, 0) == |before| + capacity - 1
  {
    var s, p := before + line + rest, |before| + capacity - 1;
    forall k | |before| <= k <= p ensures |Tail(s[..k])| == k - |before| {
      var part := line[..k - |before|];
      assert s[..k] == before + part;
      assert Plain(part);
      PlainAppends(before, part);
    }
    forall k | 0 <= k < |before| ensures |Tail(s[..k])| + 1 != capacity {
      assert s[..k] == before[..k];
      FitsBefore(before, capacity, k);
    }
    hide Tail, Lines, Limit;
    LimitIs(s, capacity, 0, p);
  }

  // For instance, a text of the capacity of the buffer or more without any newline.
  lemma LongTextIsCutShort(s: string, capacity: nat)
    requires Plain(s) && |s| >= capacity > 0
    ensures Limit(s, capacity, 0) == capacity - 1 < |s|
  {
    assert [] + s + [] == s;
    LongLineStops([], s, [], capacity);
  }

  // The first p bytes have been received and cut, through a buffer of this capacity.
  predicate Taken(s: string, capacity: nat, p: nat, lines: seq<string>, rest: string) {
    p <= |s| && lines == Lines(s[..p]) && rest == Tail(s[..p]) && RoomBefore(s, capacity, p)
  }

  lemma TakenNone(s: string, capacity: nat)
    ensures Taken(s, capacity, 0, [], [])
  {
    EmptyText();
    assert s[..0] == [];
  }

  lemma TakenMore(s: string, capacity: nat, p: nat, n: nat, lines: seq<string>, rest: string)
    requires Taken(s, capacity, p, lines, rest) && p + n <= |s| && |rest| + n + 1 <= capacity
    ensures Taken(s, capacity, p + n, lines + Lines(rest + s[p..p + n]), Tail(rest + s[p..p + n]))
  {
    assert s[..p + n] == s[..p] + s[p..p + n];
    hide Lines, Tail, RoomBefore;
    CutInChunks(s[..p], s[p..p + n]);
    RoomStopsAtLimit(s, capacity, p, p + n);
  }

  // ---------------------------------------------------------------- what recv() meets

  // A failure, or so many bytes at the most.
  datatype Arrival = Failure | Bytes(most: nat)

  predicate FailsAt(net: seq<Arrival>, k: nat) {
    k < |net| && net[k].Failure?
  }

  function Least(a: nat, b: nat): nat {
    if a < b then a else b
  }

  // How many bytes the k-th call returns when this many are there and have room: at least
  // one if there is any, and all of them once the list is used up.
  function Got(net: seq<Arrival>, k: nat, there: nat): nat {
    if k < |net| && net[k].Bytes? then Least(there, if net[k].most == 0 then 1 else net[k].most) else there
  }

  lemma GotSome(net: seq<Arrival>, k: nat, there: nat)
    ensures Got(net, k, there) <= there && (Got(net, k, there) == 0 <==> there == 0)
  {
  }

  // How many bytes the first k calls return, if none of them fails.
  function ReceivedBy(s: string, capacity: nat, net: seq<Arrival>, k: nat): (p: nat)
    ensures p <= |s|
  {
    if k == 0 then 0
    else
      var p := ReceivedBy(s, capacity, net, k - 1);
      var room := if |Tail(s[..p])| + 1 <= capacity then capacity - 1 - |Tail(s[..p])| else 0;
      GotSome(net, k - 1, Least(room, |s| - p));
      p + Got(net, k - 1, Least(room, |s| - p))
  }

  // Every call makes progress until the limit is reached, and none goes past it.
  lemma {:induction false} AllArrives(s: string, capacity: nat, net: seq<Arrival>, k: nat)
    requires capacity > 0
    ensures var p := ReceivedBy(s, capacity, net, k);
      && RoomBefore(s, capacity, p) && |Tail(s[..p])| + 1 <= capacity && p <= Limit(s, capacity, 0)
      && (p >= k || p == Limit(s, capacity, 0))
  {
    var p := ReceivedBy(s, capacity, net, k);
    if k == 0 {
      EmptyText();
      assert s[..0] == [];
    } else {
      var q := ReceivedBy(s, capacity, net, k - 1);
      AllArrives(s, capacity, net, k - 1);
      hide Limit, Tail, RoomBefore, Got;
      GotSome(net, k - 1, Least(capacity - 1 - |Tail(s[..q])|, |s| - q));
      RoomStopsAtLimit(s, capacity, q, p);
      if p == q { LimitIs(s, capacity, 0, p); }
    }
    NotPast(s, capacity, p);
  }

  // The scan has reached i; the line it is in began at start.
  predicate Scanned(text: string, i: nat, start: nat, lines: seq<string>) {
    start <= i <= |text| && lines == Lines(text[..i]) && text[start..i] == Tail(text[..i])
  }

  lemma ScanOn(text: string, i: nat, start: nat, lines: seq<string>)
    requires Scanned(text, i, start, lines) && i < |text|
    ensures if text[i] == NL then Scanned(text, i + 1, i + 1, lines + [text[start..i]])
            else Scanned(text, i + 1, start, lines)
  {
    GrownAt(text, i);
    assert text[start..i + 1] == text[start..i] + [text[i]];
    assert text[i + 1..i + 1] == [];
    hide Lines, Tail;
  }

  lemma ScanStart(text: string)
    ensures Scanned(text, 0, 0, [])
  {
    EmptyText();
    assert text[..0] == [] && text[0..0] == [];
  }

  lemma ScanEnd(text: string, start: nat, lines: seq<string>)
    requires Scanned(text, |text|, start, lines)
    ensures lines == Lines(text) && text[start..] == Tail(text)
  {
    assert text[..|text|] == text && text[start..|text|] == text[start..];
  }

  // ---------------------------------------------------------------- the listener

  datatype Ending = Closed | Failed

  class Listener {
    const buffer: array<char>  // 2048 bytes in the client
    var idx: nat

    ghost predicate Valid()
      reads this, buffer
    {
      idx < buffer.Length
    }

    // The bytes received and not cut yet.
    ghost function Pending(): string
      requires Valid()
      reads this, buffer
    {
      buffer[..idx]
    }

    constructor (capacity: nat)
      requires capacity > 0
      ensures Valid() && Pending() == [] && buffer.Length == capacity && fresh(buffer)
    {
      buffer := new char[capacity](_ => '\0');
      idx := 0;
    }

    // recv() into the free part of the buffer, and the NUL behind it.
    method Receive(chunk: string)
      requires Valid() && idx + |chunk| + 1 <= buffer.Length
      modifies this, buffer
      ensures Valid() && Pending() == old(Pending()) + chunk && buffer[idx] == '\0'
    {
      forall k | 0 <= k < |chunk| {
        buffer[idx + k] := chunk[k];
      }
      idx := idx + |chunk|;
      buffer[idx] := '\0';
    }

    // The memmove() of what is left to the front.
    method Discard(start: nat)
      requires Valid() && start <= idx
      modifies this, buffer
      ensures Valid() && Pending() == old(Pending())[start..]
    {
      forall k | 0 <= k < idx - start {
        buffer[k] := buffer[start + k];
      }
      idx := idx - start;
    }

    // The scan for newlines.
    method Cut() returns (lines: seq<string>)
      requires Valid()
      modifies this, buffer
      ensures Valid()
      ensures lines == Lines(old(Pending())) && Pending() == Tail(old(Pending()))
    {
      ghost var text := Pending();
      lines := [];
      var start, i := 0, 0;
      ScanStart(text);
      hide Scanned, Lines, Tail;
      while i < idx
        invariant 0 <= start <= i <= idx == |text| < buffer.Length
        invariant Scanned(text, i, start, lines)
        invariant forall k :: start <= k < idx ==> buffer[k] == text[k]
      {
        ScanOn(text, i, start, lines);
        if buffer[i] == NL {
          buffer[i] := '\0';
          assert buffer[start..i] == text[start..i];
          lines := lines + [buffer[start..i]];
          start := i + 1;
        }
        i := i + 1;
      }
      ScanEnd(text, start, lines);
      assert buffer[start..idx] == text[start..];
      if start != 0 { Discard(start); }
    }

    // The loop of the thread on a connection that delivers `stream` and is then closed,
    // with what each recv() meets. It ends in failure exactly if one of its calls fails;
    // otherwise the outcome does not depend on the chunks: the bytes received are those up
    // to the limit, cut into lines.
    method Listen(stream: string, net: seq<Arrival>)
      returns (lines: seq<string>, received: nat, ending: Ending, calls: nat)
      requires Valid() && Pending() == []
      modifies this, buffer
      ensures Valid() && received <= |stream|
      ensures lines == Lines(stream[..received]) && Pending() == Tail(stream[..received])
      ensures calls > 0 && received == ReceivedBy(stream, buffer.Length, net, calls - 1)
      ensures ending == Failed <==> exists k: nat :: k < calls && FailsAt(net, k)
      ensures forall k: nat :: k < calls - 1 ==> !FailsAt(net, k)
      ensures received <= Limit(stream, buffer.Length, 0)
      ensures ending == Closed ==> received == Limit(stream, buffer.Length, 0)
      ensures (forall k: nat :: !FailsAt(net, k)) ==> ending == Closed
    {
      hide Lines, Tail, Limit, RoomBefore, Got;
      lines, received, calls := [], 0, 0;
      TakenNone(stream, buffer.Length);
      while true
        invariant Valid() && Taken(stream, buffer.Length, received, lines, Pending())
        invariant received == ReceivedBy(stream, buffer.Length, net, calls)
        invariant forall k: nat :: k < calls ==> !FailsAt(net, k)
        decreases |stream| - received
      {
        var room := buffer.Length - idx - 1;
        calls := calls + 1;
        if FailsAt(net, calls - 1) {
          NotPast(stream, buffer.Length, received);
          return lines, received, Failed, calls;
        }
        var n := Got(net, calls - 1, Least(room, |stream| - received));
        GotSome(net, calls - 1, Least(room, |stream| - received));
        if n == 0 {
          LimitIs(stream, buffer.Length, 0, received);
          return lines, received, Closed, calls;
        }
        TakenMore(stream, buffer.Length, received, n, lines, Pending());
        hide Taken;
        Receive(stream[received..received + n]);
        var cut := Cut();
        lines, received := lines + cut, received + n;
      }
    }
  }
}
