// fileCopy on its own: the chunk loop, with the ways it can give up.
module FileCopy {
  import opened SourceTree
  import opened Copier

  datatype Outcome = SourceMissing | TargetRefused | ReadFailed | ShortWrite | Complete

  // What a round of the loop meets: read() fails, or read() and write() get through so
  // many bytes at the most. A write() that fails gets none through.
  datatype Round = ReadFails | Moves(read: nat, written: nat)

  function Least(a: nat, b: nat): nat {
    if a < b then a else b
  }

  predicate FailsAt(rounds: seq<Round>, k: nat) {
    k < |rounds| && rounds[k].ReadFails?
  }

  // How many bytes the k-th read() returns when so many are left: no more than the
  // buffer holds, at least one if there is any, and as many as can be once the list is
  // used up.
  function SizeAt(rounds: seq<Round>, k: nat, left: nat): nat {
    var there := Least(left, CHUNK);
    if k < |rounds| && rounds[k].Moves? then Least(there, if rounds[k].read == 0 then 1 else rounds[k].read) else there
  }

  lemma SizeFits(rounds: seq<Round>, k: nat, left: nat)
    ensures SizeAt(rounds, k, left) <= left && SizeAt(rounds, k, left) <= CHUNK
    ensures SizeAt(rounds, k, left) == 0 <==> left == 0
    ensures ThroughAt(rounds, k, SizeAt(rounds, k, left)) <= SizeAt(rounds, k, left)
  {
  }

  // How many of them the k-th write() gets through.
  function ThroughAt(rounds: seq<Round>, k: nat, size: nat): nat {
    if k < |rounds| && rounds[k].Moves? then Least(size, rounds[k].written) else size
  }

  // How many bytes the first k rounds copy, if none of them gives up.
  function CopiedBy(length: nat, rounds: seq<Round>, k: nat): (off: nat)
    ensures off <= length
  {
    if k == 0 then 0
    else
      var off := CopiedBy(length, rounds, k - 1);
      off + SizeAt(rounds, k - 1, length - off)
  }

  predicate ShortAt(length: nat, rounds: seq<Round>, k: nat) {
    var size := SizeAt(rounds, k, length - CopiedBy(length, rounds, k));
    ThroughAt(rounds, k, size) < size
  }

  // Every round copies something until all is copied.
  lemma {:induction false} AllCopied(length: nat, rounds: seq<Round>, k: nat)
    ensures CopiedBy(length, rounds, k) >= k || CopiedBy(length, rounds, k) == length
  {
    if k == 0 {
    } else {
      AllCopied(length, rounds, k - 1);
    }
  }

  // The target file as the file system holds it.
  class Target {
    var data: seq<byte>

    constructor (data: seq<byte>)
      ensures this.data == data
    {
      this.data := data;
    }

    // write(): how many bytes get through is up to the system.
    method Write(off: nat, chunk: seq<byte>, through: nat) returns (written: nat)
      requires through <= |chunk|
      modifies this
      ensures written == through && data == WriteAt(old(data), off, chunk[..written])
    {
      written := through;
      data := WriteAt(data, off, chunk[..written]);
    }
  }

  // source is what open() finds, creatable whether the target can be opened, and rounds
  // what the reads and writes meet. The target is left as it was, or holds what the rounds
  // have copied: all of the source unless one of them gives up. A read that fails ends
  // the loop just like the end of the file.
  method Copy(source: Option<seq<byte>>, creatable: bool, rounds: seq<Round>, target: Target)
    returns (outcome: Outcome, made: nat)
    modifies target
    ensures outcome == SourceMissing <==> source == None
    ensures outcome == TargetRefused <==> source.Some? && !creatable
    ensures source == None || !creatable ==> target.data == old(target.data)
    ensures source.Some? && creatable ==> var length := |source.value|;
      && made > 0 && (forall k: nat :: k < made - 1 ==> !FailsAt(rounds, k) && !ShortAt(length, rounds, k))
      && (outcome == ReadFailed <==> exists k: nat :: k < made && FailsAt(rounds, k))
      && (outcome == ShortWrite <==> !FailsAt(rounds, made - 1) && ShortAt(length, rounds, made - 1))
      && (outcome == ReadFailed ==> target.data == source.value[..CopiedBy(length, rounds, made - 1)])
      && (outcome == ShortWrite ==> target.data < source.value)
      && (outcome == Complete ==> target.data == source.value)
      && ((forall k: nat :: !FailsAt(rounds, k) && !ShortAt(length, rounds, k)) ==> outcome == Complete)
  {
    hide SizeAt, ThroughAt, WriteAt, CHUNK;
    made := 0;
    if source == None { return SourceMissing, made; }
    if !creatable { return TargetRefused, made; }
    var content, off := source.value, 0;
    target.data := [];
    while true
      invariant off == CopiedBy(|content|, rounds, made) && target.data == content[..off]
      invariant forall k: nat :: k < made ==> !FailsAt(rounds, k) && !ShortAt(|content|, rounds, k)
      decreases |content| - off
    {
      made := made + 1;
      if FailsAt(rounds, made - 1) { return ReadFailed, made; }
      var size := SizeAt(rounds, made - 1, |content| - off);
      SizeFits(rounds, made - 1, |content| - off);
      var chunk := content[off..off + size];
      if chunk == [] {
        assert content[..off] == content;
        return Complete, made;
      }
      var written := target.Write(off, chunk, ThroughAt(rounds, made - 1, size));
      ChunkAppends(content, off, chunk[..written]);
      if written != |chunk| {
        return ShortWrite, made;
      }
      off := off + |chunk|;
    }
  }
}
