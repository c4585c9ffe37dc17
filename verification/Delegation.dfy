/**
 * The delegation protocol of qdlock_base with its reader and hierarchy hooks, as a
 * transition system: any number of threads, one step per access to shared state.
 *
 * One configuration record covers the four locks built on the same code:
 *   qdlock      one node, no hierarchy, no readers
 *   mrqdlock    one node, no hierarchy, readers
 *   hqdlock     several nodes under a global lock, no readers
 *   mrhqdlock   several nodes under a global lock, readers
 *
 * A mutual exclusion lock appears here only through its contract: between the return
 * of a successful locking call and the next call of unlock it has this one holder,
 * and is_locked answers true. A try_lock may fail for any reason.
 */
module Delegation {
  import opened Prelude
  import opened TantrumQueue

  /** Values of the retry loop in delegate. */
  const RETRY_LIMIT: nat := 512
  const WAIT_PERIOD: nat := 128

  /**
   * entries: slots of each delegation queue; maxReq: the largest entry, in slots.
   * node and tid give each thread its NUMA node and its thread id.
   * cas: the queues use compare-and-swap instead of fetch-and-add.
   * limited: the starvation_free policy. patience: READ_PATIENCE_LIMIT.
   */
  datatype Config = Config(entries: nat, maxReq: nat, nodes: nat, node: seq<nat>, tid: seq<nat>, groups: nat,
                           hier: bool, rw: bool, cas: bool, limited: bool, patience: nat)

  ghost predicate ValidConfig(c: Config) {
    && 1 <= c.maxReq <= c.entries
    && 1 <= c.nodes
    && (!c.hier ==> c.nodes == 1)
    && 1 <= c.groups
    && |c.node| == |c.tid|
    && (forall t :: 0 <= t < |c.node| ==> c.node[t] < c.nodes)
  }

  function Group(c: Config, t: Tid): nat
    requires t < |c.tid| && 1 <= c.groups
  {
    c.tid[t] % c.groups
  }

  /** History of one call: its thread and size, whether it is a plain lock()/unlock()
      section, and the calls that had already returned when it began. */
  datatype Status = Active | Queued(k: nat) | Logged(p: nat)
  datatype Call = Call(thread: Tid, req: nat, direct: bool, before: set<OpId>, status: Status, returned: bool)

  /** Where a thread is. The index k is history: the position of its reservation. */
  datatype PC =
    | Idle
    | Calling(op: OpId, at: CallPoint)
    | Storing(op: OpId, index: nat, k: nat, written: bool)
    | Padding(op: OpId, retry: nat, index: nat, k: nat, written: bool)
    | HLock(op: OpId, helper: bool)
    | OpenQueue(op: OpId)
    | Own(op: OpId, helper: bool, point: OwnPoint)
    | Flush(op: OpId, fp: FlushPoint)
    | HUnlock(op: OpId)
    | MUnlock(op: OpId)
    | Leaving(op: OpId)
    | Reader(rp: ReaderPoint, raised: bool, patience: nat)

  /** delegate up to its first successful step. */
  datatype CallPoint = WaitWriters | TryFirst | LoadCounter(retry: nat) | Reserve(retry: nat, expected: nat)
                     | TryAgain(retry: nat) | LockSlow

  /** The scan of the reader groups, then the thread's own section. */
  datatype OwnPoint = Scan(g: nat) | Section

  datatype FlushPoint = Load(done: nat) | Close(done: nat)
                      | Poll(index: nat, todo: nat, open: bool) | Entry(f: Fn, index: nat, todo: nat, open: bool)
                      | Fill(i: nat, todo: nat)

  /** In a call of is_locked, free tells whether the lock was without a holder at some moment of the call so far. */
  datatype ReaderPoint = Arrive | Check(free: bool) | Depart | Spin(free: bool) | Raise | Lower | Reading

  datatype State = State(pc: seq<PC>, mutex: seq<Option<Tid>>, global: Option<Tid>, q: seq<Queue>,
                         ops: seq<Call>, log: seq<OpId>, barrier: int, rc: seq<int>)

  ghost predicate Shape(c: Config, s: State) {
    && |s.pc| == |c.node|
    && |s.mutex| == |s.q| == c.nodes
    && |s.rc| == c.groups
  }

  ghost predicate Init(c: Config, s: State) {
    && Shape(c, s)
    && (forall t :: 0 <= t < |s.pc| ==> s.pc[t] == Idle)
    && (forall n :: 0 <= n < c.nodes ==> s.mutex[n] == None)
    && s.global == None
    && (forall n :: 0 <= n < c.nodes ==> |s.q[n].cells| == c.entries && s.q[n] == New(c.entries, s.q[n].cells))
    && s.ops == [] && s.log == []
    && s.barrier == 0
    && (forall g :: 0 <= g < c.groups ==> s.rc[g] == 0)
  }

  // ---------- classes of program points ----------

  predicate HasCall(pc: PC) {
    !pc.Idle? && !pc.Reader?
  }

  /** The thread's own section has not been handed over or executed yet. */
  predicate Fresh(pc: PC) {
    pc.Calling? || pc.Padding? || pc.HLock? || pc.OpenQueue? || pc.Own?
  }

  /** Between the return of HSync::lock and the call of HSync::unlock. */
  predicate InGuard(pc: PC) {
    pc.OpenQueue? || pc.Own? || pc.Flush? || pc.HUnlock?
  }

  /** Between a successful acquisition of the node's mutex and the call of its unlock. */
  predicate HoldsMutex(pc: PC) {
    pc.HLock? || InGuard(pc) || pc.MUnlock?
  }

  /** The thread has opened its node's queue and not yet finished flushing it. */
  predicate Helping(pc: PC) {
    (pc.Own? && pc.helper) || pc.Flush?
  }

  /** A user section is running: the thread's own, or one taken from the queue. */
  predicate InSection(pc: PC) {
    (pc.Own? && pc.point.Section?) || (pc.Flush? && pc.fp.Entry? && pc.fp.f == Wrapper)
  }

  /** Between a successful check in rlock and the decrement of runlock. */
  predicate InReadSection(pc: PC) {
    pc.Reader? && (pc.rp.Lower? || pc.rp.Reading?)
  }

  /** As well, and already bound to be let in unless the check answers true after all. */
  predicate Admitted(pc: PC) {
    InReadSection(pc) || (pc.Reader? && pc.rp.Check? && pc.rp.free)
  }

  /** The thread is counted by the reader indicator. */
  predicate Counted(pc: PC) {
    pc.Reader? && (pc.rp.Check? || pc.rp.Depart? || pc.rp.Lower? || pc.rp.Reading?)
  }

  /** The thread has raised the write barrier and not yet lowered it. */
  predicate HasRaised(pc: PC) {
    pc.Reader? && pc.raised && !pc.rp.Reading?
  }

  // ---------- steps ----------

  function Goto(s: State, t: Tid, pc: PC): State
    requires t < |s.pc|
  {
    s.(pc := s.pc[t := pc])
  }

  function Returned(ops: seq<Call>): set<OpId> {
    set a: OpId | a < |ops| && ops[a].returned
  }

  function SetStatus(ops: seq<Call>, o: OpId, st: Status): seq<Call> {
    if o < |ops| then ops[o := ops[o].(status := st)] else ops
  }

  function Return(ops: seq<Call>, o: OpId): seq<Call> {
    if o < |ops| then ops[o := ops[o].(returned := true)] else ops
  }

  /** Control flow of the inner for loop, the outer while loop and the final fill of flush. */
  function AfterEntries(op: OpId, index: nat, todo: nat, open: bool): PC {
    if index < todo then Flush(op, Poll(index, todo, open))
    else if open then Flush(op, Load(todo))
    else if todo > 0 then Flush(op, Fill(0, todo))
    else HUnlock(op)
  }

  function NextRetry(c: Config, retry: nat): CallPoint {
    if c.limited && retry >= RETRY_LIMIT then LockSlow else LoadCounter(retry)
  }

  function GuardHolder(c: Config, s: State): Option<Tid>
    requires Shape(c, s) && ValidConfig(c)
  {
    if c.hier then s.global else s.mutex[0]
  }

  ghost predicate StartCall(c: Config, s: State, s': State, t: Tid, req: nat, direct: bool)
    requires ValidConfig(c) && Shape(c, s) && t < |s.pc|
  {
    && s.pc[t].Idle?
    && 1 <= req <= c.maxReq
    && s' == Goto(s, t, Calling(|s.ops|, WaitWriters))
             .(ops := s.ops + [Call(t, req, direct, Returned(s.ops), Active, false)])
  }

  /** Taking a free mutex; only then does a locking call return success. */
  function Acquire(c: Config, s: State, t: Tid, helper: bool): State
    requires ValidConfig(c) && Shape(c, s) && t < |s.pc| && s.pc[t].Calling?
  {
    Goto(s, t, HLock(s.pc[t].op, helper)).(mutex := s.mutex[c.node[t] := Some(t)])
  }

  /** delegate outside enqueue: the first attempt, the retry loop, the locked fallback, the return. */
  ghost predicate CallStep(c: Config, s: State, s': State, t: Tid)
    requires ValidConfig(c) && Shape(c, s) && t < |s.pc|
  {
    var free := s.mutex[c.node[t]] == None;
    match s.pc[t]
    case Calling(op, WaitWriters) =>
      if c.rw && s.barrier > 0 then s' == s
      else op < |s.ops| && s' == Goto(s, t, Calling(op, if s.ops[op].direct then LockSlow else TryFirst))
    case Calling(op, TryFirst) =>
      || (free && s' == Acquire(c, s, t, false))
      || s' == Goto(s, t, Calling(op, NextRetry(c, 1)))
    case Calling(op, TryAgain(retry)) =>
      || (free && s' == Acquire(c, s, t, true))
      || s' == Goto(s, t, Calling(op, NextRetry(c, retry + 1)))
    case Calling(op, LockSlow) =>
      || (free && s' == Acquire(c, s, t, false))
      || s' == s
    case Leaving(op) =>
      s' == Goto(s, t, Idle).(ops := Return(s.ops, op))
    case _ => false
  }

  /** The steps of enqueue, in the queue of the thread's node. */
  ghost predicate EnqueueStep(c: Config, s: State, s': State, t: Tid)
    requires ValidConfig(c) && Shape(c, s) && t < |s.pc|
  {
    var n := c.node[t];
    var q := s.q[n];
    match s.pc[t]
    case Calling(op, LoadCounter(retry)) =>
      && op < |s.ops|
      && s.ops[op].req <= c.entries
      && s' == Goto(s, t, Calling(op, if LooksOpen(c.entries, q, s.ops[op].req) then Reserve(retry, q.counter)
          else TryAgain(retry)))
    case Calling(op, Reserve(retry, expected)) =>
      && op < |s.ops|
      && s.ops[op].req <= c.entries
      && (|| (c.cas && s' == Goto(s, t, Calling(op, Reserve(retry, q.counter))))
          || ((c.cas ==> q.counter == expected) && s' == Reserved(c, s, t, op, retry)))
    case Storing(op, index, k, false) =>
      && index < |q.cells| && k < |q.res| && op < |s.ops|
      && s' == Goto(s, t, Storing(op, index, k, true))
          .(q := s.q[n := TantrumQueue.WriteEntry(q, index, s.ops[op].req, op, k)])
    case Storing(op, index, k, true) =>
      && index < |q.fn| && k < |q.res|
      && s' == Goto(s, t, Idle).(q := s.q[n := Publish(q, index, Wrapper, k)], ops := Return(s.ops, op))
    case Padding(op, retry, index, k, false) =>
      && index < |q.cells| && index <= c.entries && k < |q.res|
      && s' == Goto(s, t, Padding(op, retry, index, k, true)).(q := s.q[n := WritePad(q, index, c.entries - index, k)])
    case Padding(op, retry, index, k, true) =>
      && index < |q.fn| && k < |q.res|
      && s' == Goto(s, t, Calling(op, TryAgain(retry))).(q := s.q[n := Publish(q, index, Nop, k)])
    case _ => false
  }

  /** The branch on the index that the addition to the counter returned. */
  function AfterReserve(entries: nat, q: Queue, op: OpId, retry: nat, req: nat): PC
    requires req <= entries
  {
    if Fits(entries, q.counter, req) then Storing(op, q.counter, |q.res|, false)
    else if q.counter < entries then Padding(op, retry, q.counter, |q.res|, false)
    else Calling(op, TryAgain(retry))
  }

  function Reserved(c: Config, s: State, t: Tid, op: OpId, retry: nat): State
    requires |s.pc| == |c.node| && t < |s.pc| && c.node[t] < |s.q|
    requires op < |s.ops| && s.ops[op].req <= c.entries
  {
    var q := s.q[c.node[t]];
    var req := s.ops[op].req;
    Goto(s, t, AfterReserve(c.entries, q, op, retry, req))
    .(q := s.q[c.node[t] := TantrumQueue.Reserve(c.entries, q, t, op, req)],
      ops := if Fits(c.entries, q.counter, req) then SetStatus(s.ops, op, Queued(|q.res|)) else s.ops)
  }

  /** The hierarchy hooks and the unlock at the end of helper and executor. */
  ghost predicate GuardStep(c: Config, s: State, s': State, t: Tid)
    requires ValidConfig(c) && Shape(c, s) && t < |s.pc|
  {
    match s.pc[t]
    case HLock(op, helper) =>
      var s1 := Goto(s, t, if helper then OpenQueue(op) else Own(op, false, Scan(0)));
      if !c.hier then s' == s1
      else (s.global == None && s' == s1.(global := Some(t))) || s' == s
    case HUnlock(op) =>
      s' == Goto(s, t, MUnlock(op)).(global := if c.hier then None else s.global)
    case MUnlock(op) =>
      s' == Goto(s, t, Leaving(op)).(mutex := s.mutex[c.node[t] := None])
    case _ => false
  }

  /** helper and executor up to the end of the thread's own section. */
  ghost predicate OwnStep(c: Config, s: State, s': State, t: Tid)
    requires ValidConfig(c) && Shape(c, s) && t < |s.pc|
  {
    match s.pc[t]
    case OpenQueue(op) =>
      s' == Goto(s, t, Own(op, true, Scan(0))).(q := s.q[c.node[t] := Open(s.q[c.node[t]])])
    case Own(op, helper, Scan(g)) =>
      s' == Goto(s, t, Own(op, helper, if !c.rw || g >= c.groups then Section
                                       else Scan(if s.rc[g] > 0 then 0 else g + 1)))
    case Own(op, helper, Section) =>
      s' == Goto(s, t, if helper then Flush(op, Load(0)) else HUnlock(op))
            .(log := s.log + [op], ops := SetStatus(s.ops, op, Logged(|s.log|)))
    case _ => false
  }

  /** flush. */
  ghost predicate FlushStep(c: Config, s: State, s': State, t: Tid)
    requires ValidConfig(c) && Shape(c, s) && t < |s.pc|
  {
    var n := c.node[t];
    var q := s.q[n];
    match s.pc[t]
    case Flush(op, Load(done)) =>
      if q.counter == done then s' == Goto(s, t, Flush(op, Close(done)))
      else s' == Goto(s, t, AfterEntries(op, done, Min(q.counter, c.entries), q.counter < c.entries))
                 .(q := s.q[n := LoadTodo(c.entries, q)])
    case Flush(op, Close(done)) =>
      s' == Goto(s, t, AfterEntries(op, done, Min(q.counter, c.entries), false))
          .(q := s.q[n := TantrumQueue.Close(c.entries, q)])
    case Flush(op, Poll(index, todo, open)) =>
      && index < |q.fn|
      && s' == (if q.fn[index] == Null then s else Goto(s, t, Flush(op, Entry(q.fn[index], index, todo, open))))
    case Flush(op, Entry(f, index, todo, open)) =>
      && index < |q.cells|
      && s' == Executed(c, s, t, op, f, index, todo, open)
    case Flush(op, Fill(i, todo)) =>
      && i < |q.fn|
      && s' == Goto(s, t, if i + 1 < todo then Flush(op, Fill(i + 1, todo))
          else HUnlock(op)).(q := s.q[n := ClearSlot(q, i)])
    case _ => false
  }

  /** Calling the wrapper found at index: it runs the operation stored in the buffer. */
  function Executed(c: Config, s: State, t: Tid, op: OpId, f: Fn, index: nat, todo: nat, open: bool): State
    requires |s.pc| == |c.node| && t < |s.pc|
    requires c.node[t] < |s.q| && index < |s.q[c.node[t]].cells|
  {
    var q := s.q[c.node[t]];
    var cell := q.cells[index];
    Goto(s, t, AfterEntries(op, index + cell.size, todo, open))
    .(q := s.q[c.node[t] := Advance(q)],
      log := if f == Wrapper then s.log + [cell.op] else s.log,
      ops := if f == Wrapper then SetStatus(s.ops, cell.op, Logged(|s.log|)) else s.ops)
  }

  /**
   * rlock and runlock. The calls of is_locked may answer false only if the lock was without a holder at some
   * moment between their beginning and their answer; otherwise they may answer anything.
   */
  ghost predicate ReaderStep(c: Config, s: State, s': State, t: Tid)
    requires ValidConfig(c) && Shape(c, s) && t < |s.pc|
  {
    var g := Group(c, t);
    match s.pc[t]
    case Idle =>
      c.rw && s' == Goto(s, t, Reader(Arrive, false, 0))
    case Reader(Arrive, raised, p) =>
      s' == Goto(s, t, Reader(Check(false), raised, p)).(rc := s.rc[g := s.rc[g] + 1])
    case Reader(Check(free), raised, p) =>
      || s' == Goto(s, t, Reader(Depart, raised, p))
      || (GuardHolder(c, s) == None && s' == Goto(s, t, Reader(Check(true), raised, p)))
      || (free && s' == Goto(s, t, Reader(if raised then Lower else Reading, raised, p)))
    case Reader(Depart, raised, p) =>
      s' == Goto(s, t, Reader(Spin(false), raised, p)).(rc := s.rc[g := s.rc[g] - 1])
    case Reader(Spin(free), raised, p) =>
      || s' == Goto(s, t, AfterSpin(c, raised, p))
      || (GuardHolder(c, s) == None && s' == Goto(s, t, Reader(Spin(true), raised, p)))
      || (free && s' == Goto(s, t, Reader(Arrive, raised, p)))
    case Reader(Raise, _, p) =>
      s' == Goto(s, t, Reader(Spin(false), true, p + 1)).(barrier := s.barrier + 1)
    case Reader(Lower, raised, p) =>
      s' == Goto(s, t, Reader(Reading, raised, p)).(barrier := s.barrier - 1)
    case Reader(Reading, _, _) =>
      s' == Goto(s, t, Idle).(rc := s.rc[g := s.rc[g] - 1])
    case _ => false
  }

  /** rlock found the lock taken once more: when its patience ends it raises the barrier. */
  function AfterSpin(c: Config, raised: bool, p: nat): PC {
    if p == c.patience && !raised then Reader(Raise, false, p) else Reader(Spin(false), raised, p + 1)
  }

  ghost predicate ThreadStep(c: Config, s: State, s': State, t: Tid)
    requires ValidConfig(c) && Shape(c, s) && t < |s.pc|
  {
    || (exists req: nat, direct: bool :: StartCall(c, s, s', t, req, direct))
    || CallStep(c, s, s', t)
    || EnqueueStep(c, s, s', t)
    || GuardStep(c, s, s', t)
    || OwnStep(c, s, s', t)
    || FlushStep(c, s, s', t)
    || ReaderStep(c, s, s', t)
  }

  ghost predicate Next(c: Config, s: State, s': State)
    requires ValidConfig(c) && Shape(c, s)
  {
    exists t: Tid :: t < |s.pc| && ThreadStep(c, s, s', t)
  }

  /** The i-th step of a sequence of states. */
  ghost predicate NextAt(c: Config, run: seq<State>, i: nat)
    requires ValidConfig(c) && i + 1 < |run| && Shape(c, run[i])
  {
    Next(c, run[i], run[i + 1])
  }

  /** A finite run from an initial state. */
  ghost predicate Run(c: Config, run: seq<State>)
    requires ValidConfig(c)
  {
    && |run| > 0
    && Init(c, run[0])
    && (forall i :: 0 <= i < |run| ==> Shape(c, run[i]))
    && (forall i :: 0 <= i < |run| - 1 ==> NextAt(c, run, i))
  }

  lemma StepOf(c: Config, run: seq<State>, i: nat, s: State, s': State)
    requires ValidConfig(c) && Run(c, run) && i + 1 < |run| && s == run[i] && s' == run[i + 1]
    ensures Shape(c, s) && Shape(c, s') && Next(c, s, s')
  {
    assert Shape(c, run[i]) && NextAt(c, run, i);
  }

  ghost predicate Reachable(c: Config, s: State)
    requires ValidConfig(c)
  {
    exists run :: Run(c, run) && run[|run| - 1] == s
  }

  /** A step makes a run longer. */
  lemma RunExtended(c: Config, run: seq<State>, s: State, s': State)
    requires ValidConfig(c) && Run(c, run) && s == run[|run| - 1] && Shape(c, s) && Shape(c, s') && Next(c, s, s')
    ensures Run(c, run + [s'])
  {
    var longer := run + [s'];
    forall i | 0 <= i < |longer| - 1 ensures NextAt(c, longer, i) {
      if i < |run| - 1 {
        assert NextAt(c, run, i) && longer[i] == run[i] && longer[i + 1] == run[i + 1];
      } else {
        assert longer[i] == s && longer[i + 1] == s';
      }
    }
  }

  lemma NextReaches(c: Config, s: State, s': State)
    requires ValidConfig(c) && Reachable(c, s) && Shape(c, s) && Shape(c, s') && Next(c, s, s')
    ensures Reachable(c, s')
  {
    var run :| Run(c, run) && run[|run| - 1] == s;
    RunExtended(c, run, s, s');
    var longer := run + [s'];
    assert longer[|longer| - 1] == s';
  }
}
