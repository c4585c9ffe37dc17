/**
 * mcs_futex_lock: an MCS queue of waiting threads whose tail pointer shares one word
 * with a flag saying that threads sleep on the word itself. One step per atomic access
 * or futex call, any number of threads, every interleaving.
 *
 * Node addresses have bit 0 clear, so the word is a pair: pointer and flag.
 */
module McsFutexLock {
  import opened Prelude

  const SPIN_LIMIT: nat := 512

  datatype Word = Word(ptr: Option<Tid>, flag: bool)

  const FREE := Word(None, false)

  datatype Field = Free | Taken | Contended

  /** The node of a thread; each thread has one node per lock. */
  datatype McsNode = McsNode(field: Field, next: Option<Tid>)

  datatype PC =
    | Out
    | Holding
    | Lock(lp: LockPoint)
    | Unlock(up: UnlockPoint)
    | Try(tp: TryPoint)

  datatype LockPoint = Load | Cas(current: Word) | SetTaken(found: Tid) | Link(found: Tid) | Wait(wp: WaitPoint)

  /** lock after the node is linked: 512 polls, the move to contended, then the futex loop. */
  datatype WaitPoint = Poll(i: nat) | Check | Contend | Test | Futex | Asleep

  /** depth counts how often unlock has called itself. */
  datatype UnlockPoint = ReadNext(depth: nat) | ReadFlag(depth: nat) | CasFree(sleep: bool, depth: nat) | NotifyAll
                       | Await | HandOver(next: Tid) | NotifyOne(next: Tid) | ClearNext

  /** try_lock is IsLocked and CasTry; the others are try_lock_or_wait. */
  datatype TryPoint =
    | IsLocked
    | CasTry
    | LoadWord
    | CasTake(flagged: Word)
    | CasFlag(c: Word)
    | FutexWord(flagged: Word)
    | AsleepWord
    | Woken

  /**
   * word and nodes are the program's variables. The rest is history: joined lists the
   * threads in the order of their successful CASes on the word, the first left of them
   * have released the lock or handed it over, got lists the threads in the order in which
   * their locking calls succeeded, and slot is each thread's latest position in joined.
   */
  datatype State = State(word: Word, nodes: seq<McsNode>, pc: seq<PC>,
                         joined: seq<Tid>, left: nat, got: seq<Tid>, slot: seq<nat>)

  ghost predicate Shape(threads: nat, s: State) {
    |s.nodes| == |s.pc| == |s.slot| == threads
  }

  ghost predicate Init(threads: nat, s: State) {
    && Shape(threads, s)
    && s.word == FREE
    && (forall t :: 0 <= t < threads ==> s.pc[t] == Out && s.nodes[t].next == None)
    && s.joined == [] && s.left == 0 && s.got == []
  }

  function Goto(s: State, t: Tid, pc: PC): State
    requires t < |s.pc|
  {
    s.(pc := s.pc[t := pc])
  }

  /** History: t's CAS on the word succeeded. */
  function Join(s: State, t: Tid, word: Word): State
    requires t < |s.slot|
  {
    s.(word := word, joined := s.joined + [t], slot := s.slot[t := |s.joined|])
  }

  /** A locking call of t returns with the lock. */
  function Acquired(s: State, t: Tid): State
    requires t < |s.pc|
  {
    Goto(s, t, Holding).(got := s.got + [t])
  }

  function SetField(s: State, t: Tid, f: Field): State
    requires t < |s.nodes|
  {
    s.(nodes := s.nodes[t := s.nodes[t].(field := f)])
  }

  function SetNext(s: State, t: Tid, next: Option<Tid>): State
    requires t < |s.nodes|
  {
    s.(nodes := s.nodes[t := s.nodes[t].(next := next)])
  }

  // ---------- steps ----------

  ghost predicate CallStep(threads: nat, s: State, s': State, t: Tid)
    requires Shape(threads, s) && t < threads
  {
    || (s.pc[t].Out? && s' == Goto(s, t, Lock(Load)))
    || (s.pc[t].Out? && s' == Goto(s, t, Try(IsLocked)))
    || (s.pc[t].Out? && s' == Goto(s, t, Try(LoadWord)))
    || (s.pc[t].Holding? && s' == Goto(s, t, Unlock(ReadNext(0))))
  }

  /** lock up to the link from its predecessor. */
  ghost predicate LockStep(threads: nat, s: State, s': State, t: Tid)
    requires Shape(threads, s) && t < threads
  {
    match s.pc[t]
    case Lock(Load) => s' == Goto(s, t, Lock(Cas(s.word)))
    case Lock(Cas(current)) =>
      if s.word != current then s' == Goto(s, t, Lock(Cas(s.word)))
      else if current.ptr.None? then s' == Acquired(Join(s, t, Word(Some(t), current.flag)), t)
      else s' == Goto(Join(s, t, Word(Some(t), current.flag)), t, Lock(SetTaken(current.ptr.value)))
    case Lock(SetTaken(found)) => s' == Goto(SetField(s, t, Taken), t, Lock(Link(found)))
    case Lock(Link(found)) => found < threads && s' == Goto(SetNext(s, found, Some(t)), t, Lock(Wait(Poll(0))))
    case _ => false
  }

  ghost predicate WaitStep(threads: nat, s: State, s': State, t: Tid)
    requires Shape(threads, s) && t < threads
  {
    var f := s.nodes[t].field;
    match s.pc[t]
    case Lock(Wait(Poll(i))) => s' == Goto(s, t, Lock(Wait(if i >= SPIN_LIMIT || f == Free then Check
        else Poll(i + 1))))
    case Lock(Wait(Check)) => s' == Goto(s, t, Lock(Wait(if f == Taken then Contend else Test)))
    case Lock(Wait(Contend)) =>
      if f == Taken then s' == Goto(SetField(s, t, Contended), t, Lock(Wait(Test)))
      else if f == Free then s' == Acquired(s, t)
      else s' == Goto(s, t, Lock(Wait(Test)))
    case Lock(Wait(Test)) => if f == Free then s' == Acquired(s, t) else s' == Goto(s, t, Lock(Wait(Futex)))
    case Lock(Wait(Futex)) => s' == Goto(s, t, Lock(Wait(if f == Contended then Asleep else Test)))
    case Lock(Wait(Asleep)) => s' == Goto(s, t, Lock(Wait(Test)))  // a spurious return of the system call
    case _ => false
  }

  /** unlock up to the CAS that frees the word. */
  ghost predicate ReleaseStep(threads: nat, s: State, s': State, t: Tid)
    requires Shape(threads, s) && t < threads
  {
    match s.pc[t]
    case Unlock(ReadNext(d)) => s' == Goto(s, t, Unlock(if s.nodes[t].next.None? then ReadFlag(d) else Await))
    case Unlock(ReadFlag(d)) => s' == Goto(s, t, Unlock(CasFree(s.word.flag, d)))
    case Unlock(CasFree(sleep, d)) =>
      if s.word == Word(Some(t), sleep) then
        s' == Goto(s, t, if sleep then Unlock(NotifyAll) else Out).(word := FREE, left := s.left + 1)
      else s' == Goto(s, t, Unlock(if s.word.ptr == Some(t) then ReadNext(d + 1) else Await))
    case _ => false
  }

  /** Threads woken from their sleep on the word still have to return. */
  function WakeAll(pc: seq<PC>): seq<PC> {
    seq(|pc|, i requires 0 <= i < |pc| => if pc[i] == Try(AsleepWord) then Try(Woken) else pc[i])
  }

  function WakeOne(pc: seq<PC>, n: Tid): seq<PC> {
    if n < |pc| && pc[n] == Lock(Wait(Asleep)) then pc[n := Lock(Wait(Test))] else pc
  }

  /** unlock after the CAS: waking sleepers, or handing over to the next node. */
  ghost predicate HandStep(threads: nat, s: State, s': State, t: Tid)
    requires Shape(threads, s) && t < threads
  {
    match s.pc[t]
    case Unlock(NotifyAll) => s' == Goto(s.(pc := WakeAll(s.pc)), t, Out)
    case Unlock(Await) => s' == (if s.nodes[t].next.None? then s
        else Goto(s, t, Unlock(HandOver(s.nodes[t].next.value))))
    case Unlock(HandOver(n)) =>
      && n < threads
      && s' == Goto(SetField(s, n, Free), t, Unlock(if s.nodes[n].field == Contended then NotifyOne(n) else ClearNext))
                .(left := s.left + 1)
    case Unlock(NotifyOne(n)) => s' == Goto(s.(pc := WakeOne(s.pc, n)), t, Unlock(ClearNext))
    case Unlock(ClearNext) => s' == Goto(SetNext(s, t, None), t, Out)
    case _ => false
  }

  /** Where the loop of try_lock_or_wait goes when it has read c. */
  function AfterRead(c: Word, flagged: Word): PC {
    Try(if c.flag then FutexWord(flagged) else if c == FREE then CasTake(flagged) else CasFlag(c))
  }

  /** The futex call compares only the low 32 bits, so it may also sleep on another flagged word. */
  ghost predicate TryStep(threads: nat, s: State, s': State, t: Tid)
    requires Shape(threads, s) && t < threads
  {
    match s.pc[t]
    case Try(IsLocked) => s' == Goto(s, t, if s.word != FREE then Out else Try(CasTry))
    case Try(CasTry) =>
      s' == if s.word == FREE then Acquired(Join(s, t, Word(Some(t), false)), t) else Goto(s, t, Out)
    case Try(LoadWord) => s' == Goto(s, t, AfterRead(s.word, s.word.(flag := true)))
    case Try(CasTake(flagged)) =>
      s' == if s.word == FREE then Acquired(Join(s, t, Word(Some(t), false)), t)
          else Goto(s, t, AfterRead(s.word, flagged))
    case Try(CasFlag(c)) =>
      || (s.word == c && s' == Goto(s, t, Try(FutexWord(c.(flag := true)))).(word := c.(flag := true)))
      || s' == Goto(s, t, AfterRead(s.word, c.(flag := true)))
    case Try(FutexWord(flagged)) =>
      || (s.word.flag && s' == Goto(s, t, Try(AsleepWord)))
      || (s.word != flagged && s' == Goto(s, t, Out))
    case Try(AsleepWord) => s' == Goto(s, t, Try(Woken))  // a spurious return of the system call
    case Try(Woken) => s' == Goto(s, t, Out)
    case _ => false
  }

  ghost predicate ThreadStep(threads: nat, s: State, s': State, t: Tid)
    requires Shape(threads, s) && t < threads
  {
    || CallStep(threads, s, s', t)
    || LockStep(threads, s, s', t)
    || WaitStep(threads, s, s', t)
    || ReleaseStep(threads, s, s', t)
    || HandStep(threads, s, s', t)
    || TryStep(threads, s, s', t)
  }

  /** The i-th step of a sequence of states. */
  ghost predicate NextAt(threads: nat, run: seq<State>, i: nat)
    requires i + 1 < |run|
  {
    Next(threads, run[i], run[i + 1])
  }

  ghost predicate Run(threads: nat, run: seq<State>) {
    && |run| > 0
    && Init(threads, run[0])
    && (forall i :: 0 <= i < |run| ==> Shape(threads, run[i]))
    && (forall i :: 0 <= i < |run| - 1 ==> NextAt(threads, run, i))
  }

  ghost predicate Next(threads: nat, s: State, s': State) {
    Shape(threads, s) && exists t: Tid :: t < threads && ThreadStep(threads, s, s', t)
  }

  ghost predicate Reachable(threads: nat, s: State) {
    exists run :: Run(threads, run) && run[|run| - 1] == s
  }

  // ---------- the invariant ----------

  /** In the chain, from the successful CAS until the lock is released or handed over. */
  predicate Member(pc: PC) {
    || pc.Holding?
    || (pc.Lock? && (pc.lp.SetTaken? || pc.lp.Link? || pc.lp.Wait?))
    || Releasing(pc)
  }

  /** In unlock, still owning the lock. */
  predicate Releasing(pc: PC) {
    pc.Unlock? && (pc.up.ReadNext? || pc.up.ReadFlag? || pc.up.CasFree? || pc.up.Await? || pc.up.HandOver?)
  }

  predicate Owner(pc: PC) {
    pc.Holding? || Releasing(pc)
  }

  predicate Linked(pc: PC) {
    pc.Lock? && pc.lp.Wait?
  }

  /** The next node in the chain, once it has stored the link. */
  function Successor(s: State, i: nat): Option<Tid> {
    if i < |s.joined| && s.joined[i] < |s.pc| && Linked(s.pc[s.joined[i]]) then Some(s.joined[i]) else None
  }

  /** After a handover, before the node's own link is cleared. */
  predicate Done(pc: PC) {
    pc.Unlock? && (pc.up.NotifyOne? || pc.up.ClearNext?)
  }

  /** Place i of the chain is taken by the thread that joined i-th. */
  ghost predicate PlaceOk(threads: nat, s: State, i: nat)
    requires Shape(threads, s) && i < |s.joined|
  {
    s.joined[i] < threads && Member(s.pc[s.joined[i]]) && s.slot[s.joined[i]] == i
  }

  /** A member's place, and its link: it points to its successor exactly when the successor has stored it. */
  ghost predicate ThreadOk(threads: nat, s: State, t: Tid)
    requires Shape(threads, s) && t < threads
  {
    && (Member(s.pc[t]) ==>
          && s.left <= s.slot[t] < |s.joined| && s.joined[s.slot[t]] == t
          && s.nodes[t].next == Successor(s, s.slot[t] + 1))
    && (!Member(s.pc[t]) && !Done(s.pc[t]) ==> s.nodes[t].next == None)
    && At(s, t, s.pc[t])
  }

  ghost predicate At(s: State, t: Tid, pc: PC)
    requires t < |s.slot| && t < |s.nodes|
  {
    match pc
    case Holding => s.slot[t] == s.left
    case Lock(SetTaken(found)) => Behind(s, s.slot[t], found)
    case Lock(Link(found)) => Behind(s, s.slot[t], found) && s.nodes[t].field == Taken
    case Lock(Wait(wp)) =>
      && (s.nodes[t].field == Free <==> s.slot[t] == s.left)
      && (if wp.Poll? || wp.Check? || wp.Contend? then s.nodes[t].field != Contended else s.nodes[t].field != Taken)
    case Unlock(ReadNext(d)) => s.slot[t] == s.left && Depth(s, false, d)
    case Unlock(ReadFlag(d)) => s.slot[t] == s.left && Depth(s, false, d)
    case Unlock(CasFree(sleep, d)) => s.slot[t] == s.left && Depth(s, sleep, d) && (d == 1 ==> sleep)
    case Unlock(Await) => s.slot[t] == s.left && s.left + 1 < |s.joined|
    case Unlock(HandOver(n)) => s.slot[t] == s.left && s.nodes[t].next == Some(n)
    case Try(CasFlag(c)) => c.ptr.Some? && !c.flag
    case Try(CasTake(flagged)) => flagged.flag
    case Try(FutexWord(flagged)) => flagged.flag
    case _ => true
  }

  ghost predicate Behind(s: State, i: nat, found: Tid) {
    s.left < i <= |s.joined| && found == s.joined[i - 1]
  }

  /** unlock re-enters itself only after it has seen the flag, and then at most once. */
  ghost predicate Depth(s: State, sleep: bool, d: nat) {
    d <= 1 && (d == 1 || sleep ==> s.word.flag)
  }

  /** The word is the tail of the chain, and never the bare flag. */
  ghost predicate WordOk(s: State)
    requires s.left <= |s.joined|
  {
    && s.word.ptr == (if s.left < |s.joined| then Some(s.joined[|s.joined| - 1]) else None)
    && (s.word.ptr.None? ==> !s.word.flag)
  }

  /** The chain is exactly the threads between their CAS and their release, in CAS order. */
  ghost predicate Chain(threads: nat, s: State)
    requires Shape(threads, s)
  {
    && s.left <= |s.joined|
    && (forall i :: s.left <= i < |s.joined| ==> PlaceOk(threads, s, i))
    && (forall t :: 0 <= t < threads ==> ThreadOk(threads, s, t))
    && WordOk(s)
  }

  ghost predicate WillWake(s: State, t: Tid) {
    exists u: Tid :: u < |s.pc| && s.pc[u] == Unlock(NotifyOne(t))
  }

  ghost predicate WillWakeAll(s: State) {
    exists u: Tid :: u < |s.pc| && s.pc[u] == Unlock(NotifyAll)
  }

  /** Nobody sleeps without either the mark that makes its waker notify, or a notification on its way. */
  ghost predicate Sleepers(threads: nat, s: State)
    requires Shape(threads, s)
  {
    && (forall t :: 0 <= t < threads && s.pc[t] == Lock(Wait(Asleep)) ==>
        s.nodes[t].field == Contended || WillWake(s, t))
    && (forall t :: 0 <= t < threads && s.pc[t] == Try(AsleepWord) ==> s.word.flag || WillWakeAll(s))
  }

  /** Locking calls succeed in the order of their CASes. */
  ghost predicate Fifo(threads: nat, s: State)
    requires Shape(threads, s) && Chain(threads, s)
  {
    && |s.got| <= |s.joined| && s.got == s.joined[..|s.got|]
    && |s.got| == s.left + (if HeadOwns(threads, s) then 1 else 0)
  }

  ghost predicate HeadOwns(threads: nat, s: State)
    requires Shape(threads, s)
  {
    s.left < |s.joined| && s.joined[s.left] < threads && Owner(s.pc[s.joined[s.left]])
  }

  ghost predicate Inv(threads: nat, s: State) {
    && Shape(threads, s)
    && Chain(threads, s)
    && Sleepers(threads, s)
    && Fifo(threads, s)
  }
}
