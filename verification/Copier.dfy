// The parallel copier as a step relation: one manager, any number of workers, one step
// per access to a shared variable or per lock, wait, signal or barrier call.
module Copier {
  import opened SourceTree
  import opened Walk
  import R = Ring

  const CHUNK: nat := 4096

  datatype Config = Config(
    cap: nat,          // buffer size
    workers: nat,
    srcRoot: string,
    dstRoot: string,
    tree: Node)        // what is mounted at srcRoot, unchanged during the run

  predicate GoodConfig(c: Config) {
    c.cap >= 1 && c.workers >= 1 && WellFormed(c.tree)
  }

  datatype Tid = Manager | Worker(id: nat)

  // ---------------------------------------------------------------- program counters

  datatype MPc =
    | Walking                // lines 122-147 and 166-188: the private traversal
    | PutLock(task: Task)    // 149
    | PutTest(task: Task)    // 151
    | PutWait(task: Task)    // 152: about to sleep, still holding the lock
    | PutAsleep(task: Task)  // on not_full
    | PutRelock(task: Task)  // woken, must take the lock again
    | PutStore(task: Task)   // 157-158
    | PutAdvance(task: Task) // 159
    | PutCount               // 160
    | PutSignal              // 161
    | PutUnlock              // 163
    | ClearActive            // 191, without the lock
    | Broadcast              // 193, without the lock
    | Finished

  // A task taken from the ring, with its position in the order of production.
  datatype Job = Job(id: nat, task: Task)

  datatype WPc =
    | Begin                             // 201: arriving at the first barrier
    | Started(gen: nat)                 // waiting at it
    | LoopActive                        // 204, first read
    | LoopCount                         // 204, second read
    | Lock                              // 207
    | TestCount                         // 209, first read
    | TestActive                        // 209, second read
    | CondWait                          // 210: about to sleep, still holding the lock
    | Asleep                            // on not_empty
    | Relock                            // woken, must take the lock again
    | IfCount                           // 212
    | ReadSlot                          // 215-216
    | AdvanceOut(task: Task)            // 217
    | DecCount(job: Job)                // 218
    | SignalFull(job: Job)              // 220
    | UnlockTaken(job: Job)             // 229 after taking, and the test of src on 230
    | UnlockTwice                       // 225: the first unlock of the empty branch
    | UnlockEmpty                       // 229 after the empty branch
    | OpenSource(job: Job)              // 273
    | OpenTarget(job: Job)              // 279, truncating
    | ReadChunk(job: Job, off: nat)     // 286
    | WriteChunk(job: Job, off: nat, chunk: seq<byte>)  // 287
    | StatLock(job: Job)                // 236
    | StatBytes(job: Job)               // 240-242
    | StatKind(job: Job)                // 244-252
    | StatTotal(job: Job)               // 254
    | StatUnlock                        // 258
    | End                               // 262: arriving at the second barrier
    | Ended(gen: nat)                   // waiting at it
    | Returned

  // ---------------------------------------------------------------- shared state

  datatype Barrier = Barrier(arrived: nat, phase: nat)

  datatype Stats = Stats(filesCopied: nat, directories: nat, bytes: nat, regular: nat, fifo: nat)

  datatype Disk = Disk(files: map<string, seq<byte>>, dirs: set<string>)

  // What has happened so far; read by the properties, never by the program.
  datatype History = History(
    produced: seq<Task>,   // tasks put in the ring, in order
    taken: nat,            // how many of them have left it
    copied: seq<nat>,      // positions of the completed fileCopy calls
    pairs: seq<Task>,      // what each of those calls has read and written
    tallied: seq<nat>,     // positions entered in the statistics
    committed: set<nat>)   // workers about to sleep when the manager broadcast

  datatype State = State(
    slots: seq<Task>, inn: nat, out: nat, count: int,
    lock: Option<Tid>,
    active: bool,
    barrier: Barrier,
    statLock: Option<nat>,
    stats: Stats,
    disk: Disk,
    mgr: MPc,
    walk: Walk,
    ws: seq<WPc>,
    hist: History)

  predicate Shape(c: Config, s: State) {
    GoodConfig(c) && |s.ws| == c.workers && |s.slots| == c.cap && s.inn < c.cap && s.out < c.cap
  }

  ghost predicate Init(c: Config, s: State) {
    && Shape(c, s)
    && s.inn == 0 && s.out == 0 && s.count == 0
    && s.lock == None && s.statLock == None && s.active
    && s.barrier == Barrier(0, 0)
    && s.stats == Stats(0, 0, 0, 0, 0)
    && s.mgr == Walking && s.walk == Start(c.srcRoot, c.dstRoot, c.tree)
    && (forall i :: 0 <= i < |s.ws| ==> s.ws[i] == Begin)
    && s.hist == History([], 0, [], [], [], {})
  }

  // ---------------------------------------------------------------- file system calls

  ghost function At(c: Config, path: string): Option<Node> {
    Lookup(c.tree, c.srcRoot, path)
  }

  ghost function Content(c: Config, path: string): seq<byte> {
    match At(c, path)
    case Some(File(content)) => content
    case _ => []
  }

  // mkdir fails if the directory exists or its parent does not; the parent of the
  // target root is outside the model and taken to exist.
  predicate MkdirWorks(c: Config, disk: Disk, dir: string) {
    dir !in disk.dirs && (dir == c.dstRoot || ParentDir(dir) in disk.dirs)
  }

  // open(O_WRONLY | O_CREAT | O_TRUNC) needs the directory of the file.
  predicate OpenWorks(disk: Disk, file: string) {
    ParentDir(file) in disk.dirs
  }

  // write() at an offset of the open file: a gap reads as zeros, what lies beyond stays.
  function WriteAt(old_content: seq<byte>, off: nat, chunk: seq<byte>): seq<byte> {
    (if |old_content| >= off then old_content[..off] else old_content + seq(off - |old_content|, _ => 0 as byte))
    + chunk
    + (if |old_content| > off + |chunk| then old_content[off + |chunk|..] else [])
  }

  // Writing the next chunk of a file behind the part already written.
  lemma ChunkAppends(content: seq<byte>, off: nat, chunk: seq<byte>)
    requires off + |chunk| <= |content| && chunk == content[off..off + |chunk|]
    ensures WriteAt(content[..off], off, chunk) == content[..off + |chunk|]
  {
    assert content[..off][..off] == content[..off];
    assert content[..off] + content[off..off + |chunk|] == content[..off + |chunk|];
  }

  // ---------------------------------------------------------------- steps

  // pick is the sleeper that a signal wakes, or the number of bytes a read returns.
  datatype Label =
    | Mgr(pick: nat)
    | Wrk(id: nat, pick: nat)
    | SpuriousMgr
    | SpuriousWrk(id: nat)

  predicate SomeoneAsleep(s: State) {
    exists i :: 0 <= i < |s.ws| && s.ws[i] == Asleep
  }

  predicate MgrCan(c: Config, s: State, pick: nat)
    requires Shape(c, s)
  {
    match s.mgr
    case PutLock(_) => s.lock == None
    case PutRelock(_) => s.lock == None
    case PutAsleep(_) => false
    case PutSignal => SomeoneAsleep(s) ==> pick < |s.ws| && s.ws[pick] == Asleep
    case Finished => false
    case _ => true
  }

  function To(s: State, i: nat, next: WPc): State
    requires i < |s.ws|
  {
    s.(ws := s.ws[i := next])
  }

  // The traversal, up to the next task to queue.
  function WalkDo(c: Config, s: State): State
    requires Shape(c, s) && s.mgr == Walking
  {
    if s.walk.list == [] then s.(mgr := ClearActive)
    else
      var (a, w) := Advance(s.walk);
      match a
      case None => s.(walk := w)
      case Some(Mkdir(d)) =>
        if MkdirWorks(c, s.disk, d)
        then s.(walk := w, disk := s.disk.(dirs := s.disk.dirs + {d}),
                stats := s.stats.(directories := s.stats.directories + 1))
        else s.(walk := w)
      case Some(Put(t)) => s.(walk := w, mgr := PutLock(t))
  }

  function PutDo(c: Config, s: State, pick: nat): State
    requires Shape(c, s) && s.mgr != Walking && MgrCan(c, s, pick)
  {
    match s.mgr
    case PutLock(t) => s.(lock := Some(Manager), mgr := PutTest(t))
    case PutTest(t) => if s.count == c.cap && s.active then s.(mgr := PutWait(t)) else s.(mgr := PutStore(t))
    case PutWait(t) => s.(lock := None, mgr := PutAsleep(t))
    case PutRelock(t) => s.(lock := Some(Manager), mgr := PutTest(t))
    case PutStore(t) => s.(slots := s.slots[s.inn := t], mgr := PutAdvance(t))
    case PutAdvance(t) =>
      s.(inn := R.Succ(s.inn, c.cap), mgr := PutCount, hist := s.hist.(produced := s.hist.produced + [t]))
    case PutCount => s.(count := s.count + 1, mgr := PutSignal)
    case PutSignal => (if SomeoneAsleep(s) then To(s, pick, Relock) else s).(mgr := PutUnlock)
    case PutUnlock => s.(lock := None, mgr := Walking)
    case ClearActive => s.(active := false, mgr := Broadcast)
    case Broadcast =>
      s.(ws := WakeAll(s.ws), mgr := Finished,
         hist := s.hist.(committed := set i | 0 <= i < |s.ws| && s.ws[i] == CondWait))
  }

  function WakeAll(ws: seq<WPc>): (r: seq<WPc>)
    ensures |r| == |ws| && forall i :: 0 <= i < |ws| ==> r[i] == if ws[i] == Asleep then Relock else ws[i]
  {
    if ws == [] then [] else [if ws[0] == Asleep then Relock else ws[0]] + WakeAll(ws[1..])
  }

  function MgrDo(c: Config, s: State, pick: nat): (s': State)
    requires Shape(c, s) && MgrCan(c, s, pick)
    ensures Shape(c, s')
  {
    if s.mgr == Walking then WalkDo(c, s) else PutDo(c, s, pick)
  }

  // pthread_barrier_wait: the last arrival opens the barrier for everyone.
  function Arrive(c: Config, b: Barrier): Barrier {
    if b.arrived + 1 == c.workers then Barrier(0, b.phase + 1) else b.(arrived := b.arrived + 1)
  }

  ghost predicate WrkCan(c: Config, s: State, i: nat, pick: nat)
    requires Shape(c, s)
  {
    i < |s.ws| &&
    match s.ws[i]
    case Started(g) => s.barrier.phase > g
    case Ended(g) => s.barrier.phase > g
    case Lock => s.lock == None
    case Relock => s.lock == None
    case Asleep => false
    case ReadChunk(job, off) =>
      var left := |Content(c, job.task.src)| - off;
      left > 0 ==> 1 <= pick <= left && pick <= CHUNK
    case StatLock(_) => s.statLock == None
    case Returned => false
    case _ => true
  }

  // Outside the critical sections: barriers and the loop test.
  predicate InLoop(pc: WPc) {
    pc.Begin? || pc.Started? || pc.LoopActive? || pc.LoopCount? || pc.End? || pc.Ended?
  }

  // Between asking for the ring and giving it up.
  predicate InRing(pc: WPc) {
    pc.Lock? || pc.TestCount? || pc.TestActive? || pc.CondWait? || pc.Relock? || pc.IfCount? || pc.ReadSlot?
    || pc.AdvanceOut? || pc.DecCount? || pc.SignalFull? || pc.UnlockTaken? || pc.UnlockTwice? || pc.UnlockEmpty?
  }

  predicate InCopy(pc: WPc) {
    pc.OpenSource? || pc.OpenTarget? || pc.ReadChunk? || pc.WriteChunk?
  }

  predicate InStats(pc: WPc) {
    pc.StatLock? || pc.StatBytes? || pc.StatKind? || pc.StatTotal? || pc.StatUnlock?
  }

  function LoopDo(c: Config, s: State, i: nat): State
    requires Shape(c, s) && i < |s.ws| && InLoop(s.ws[i])
  {
    match s.ws[i]
    case Begin => To(s, i, Started(s.barrier.phase)).(barrier := Arrive(c, s.barrier))
    case Started(_) => To(s, i, LoopActive)
    case LoopActive => To(s, i, if s.active then Lock else LoopCount)
    case LoopCount => To(s, i, if s.count > 0 then Lock else End)
    case End => To(s, i, Ended(s.barrier.phase)).(barrier := Arrive(c, s.barrier))
    case Ended(_) => To(s, i, Returned)
  }

  function RingDo(c: Config, s: State, i: nat): State
    requires Shape(c, s) && i < |s.ws| && InRing(s.ws[i])
  {
    match s.ws[i]
    case Lock => To(s, i, TestCount).(lock := Some(Worker(i)))
    case TestCount => To(s, i, if s.count == 0 then TestActive else IfCount)
    case TestActive => To(s, i, if s.active then CondWait else IfCount)
    case CondWait => To(s, i, Asleep).(lock := None)
    case Relock => To(s, i, TestCount).(lock := Some(Worker(i)))
    case IfCount => To(s, i, if s.count > 0 then ReadSlot else UnlockTwice)
    case ReadSlot => To(s, i, AdvanceOut(s.slots[s.out]))
    case AdvanceOut(t) =>
      To(s, i, DecCount(Job(s.hist.taken, t))).(
        out := R.Succ(s.out, c.cap), hist := s.hist.(taken := s.hist.taken + 1))
    case DecCount(job) => To(s, i, SignalFull(job)).(count := s.count - 1)
    case SignalFull(job) =>
      To(s, i, UnlockTaken(job)).(mgr := if s.mgr.PutAsleep? then PutRelock(s.mgr.task) else s.mgr)
    case UnlockTaken(job) =>
      To(s, i, if job.task.src != "" then OpenSource(job) else LoopActive).(lock := None)
    case UnlockTwice => To(s, i, UnlockEmpty).(lock := None)
    case UnlockEmpty => To(s, i, LoopActive).(lock := None)
  }

  ghost function CopyDo(c: Config, s: State, i: nat, pick: nat): State
    requires Shape(c, s) && i < |s.ws| && InCopy(s.ws[i]) && WrkCan(c, s, i, pick)
  {
    match s.ws[i]
    case OpenSource(job) => To(s, i, if At(c, job.task.src).Some? then OpenTarget(job) else StatLock(job))
    case OpenTarget(job) =>
      if OpenWorks(s.disk, job.task.dest)
      then To(s, i, ReadChunk(job, 0)).(disk := s.disk.(files := s.disk.files[job.task.dest := []]))
      else To(s, i, StatLock(job))
    case ReadChunk(job, off) =>
      var content := Content(c, job.task.src);
      if off < |content| then To(s, i, WriteChunk(job, off, content[off..off + pick]))
      else
        To(s, i, StatLock(job)).(
          hist := s.hist.(copied := s.hist.copied + [job.id], pairs := s.hist.pairs + [job.task]))
    case WriteChunk(job, off, chunk) =>
      var before := if job.task.dest in s.disk.files then s.disk.files[job.task.dest] else [];
      To(s, i, ReadChunk(job, off + |chunk|)).(
        disk := s.disk.(files := s.disk.files[job.task.dest := WriteAt(before, off, chunk)]))
  }

  ghost function StatsDo(c: Config, s: State, i: nat): State
    requires Shape(c, s) && i < |s.ws| && InStats(s.ws[i])
  {
    match s.ws[i]
    case StatLock(job) => To(s, i, StatBytes(job)).(statLock := Some(i))
    case StatBytes(job) =>
      To(s, i, StatKind(job)).(
        stats := s.stats.(bytes := s.stats.bytes + |Content(c, job.task.src)|),
        hist := s.hist.(tallied := s.hist.tallied + [job.id]))
    case StatKind(job) =>
      var kind := At(c, job.task.src);
      To(s, i, StatTotal(job)).(
        stats := if kind == Some(Fifo) then s.stats.(fifo := s.stats.fifo + 1)
                 else if kind.Some? && kind.value.File? then s.stats.(regular := s.stats.regular + 1)
                 else s.stats)
    case StatTotal(job) => To(s, i, StatUnlock).(stats := s.stats.(filesCopied := s.stats.filesCopied + 1))
    case StatUnlock => To(s, i, LoopActive).(statLock := None)
  }

  ghost function WrkDo(c: Config, s: State, i: nat, pick: nat): (s': State)
    requires Shape(c, s) && WrkCan(c, s, i, pick)
    ensures Shape(c, s')
  {
    var pc := s.ws[i];
    if InLoop(pc) then LoopDo(c, s, i)
    else if InRing(pc) then RingDo(c, s, i)
    else if InCopy(pc) then CopyDo(c, s, i, pick)
    else StatsDo(c, s, i)
  }

  ghost predicate Can(c: Config, s: State, l: Label)
    requires Shape(c, s)
  {
    match l
    case Mgr(pick) => MgrCan(c, s, pick)
    case Wrk(i, pick) => WrkCan(c, s, i, pick)
    case SpuriousMgr => s.mgr.PutAsleep?
    case SpuriousWrk(i) => i < |s.ws| && s.ws[i] == Asleep
  }

  ghost function Do(c: Config, s: State, l: Label): (s': State)
    requires Shape(c, s) && Can(c, s, l)
    ensures Shape(c, s')
  {
    match l
    case Mgr(pick) => MgrDo(c, s, pick)
    case Wrk(i, pick) => WrkDo(c, s, i, pick)
    case SpuriousMgr => s.(mgr := PutRelock(s.mgr.task))
    case SpuriousWrk(i) => To(s, i, Relock)
  }

  ghost predicate Next(c: Config, s: State, l: Label, s': State) {
    Shape(c, s) && Can(c, s, l) && s' == Do(c, s, l)
  }

  // A run: the states passed through and the steps between them.
  ghost predicate IsRun(c: Config, run: seq<State>, ls: seq<Label>) {
    && |run| == |ls| + 1
    && Init(c, run[0])
    && forall k :: 0 <= k < |ls| ==> Next(c, run[k], ls[k], run[k + 1])
  }

  predicate Spurious(l: Label) {
    l.SpuriousMgr? || l.SpuriousWrk?
  }
}
