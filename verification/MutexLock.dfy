/**
 * mutex_lock: a std::mutex with a flag beside it for is_locked. The flag lags behind the
 * mutex on both ends, and still gives readers what they need: it is set whenever a
 * locking call has returned and the next unlock has not begun.
 */
module MutexLock {
  import opened Prelude
  import opened LockContract

  datatype PC =
    | Out
    | Holding
    | Lock                 // mutex.lock()
    | Check | TryMutex     // try_lock: is_locked(), then mutex.try_lock()
    | SetFlag              // both, once the mutex is theirs
    | ClearFlag | Release  // unlock

  datatype State = State(locked: bool, mutex: Option<Tid>, pc: seq<PC>)

  ghost predicate Init(threads: nat, s: State) {
    |s.pc| == threads && !s.locked && s.mutex == None && forall t :: 0 <= t < threads ==> s.pc[t] == Out
  }

  function Goto(s: State, t: Tid, pc: PC): State
    requires t < |s.pc|
  {
    s.(pc := s.pc[t := pc])
  }

  /** std::mutex::try_lock may fail spuriously; lock waits until the mutex is free. */
  ghost predicate ThreadStep(s: State, s': State, t: Tid)
    requires t < |s.pc|
  {
    match s.pc[t]
    case Out => s' == Goto(s, t, Lock) || s' == Goto(s, t, Check)
    case Holding => s' == Goto(s, t, ClearFlag)
    case Lock => s' == if s.mutex == None then Goto(s, t, SetFlag).(mutex := Some(t)) else s
    case Check => s' == Goto(s, t, if s.locked then Out else TryMutex)
    case TryMutex => s' == Goto(s, t, Out) || (s.mutex == None && s' == Goto(s, t, SetFlag).(mutex := Some(t)))
    case SetFlag => s' == Goto(s, t, Holding).(locked := true)
    case ClearFlag => s' == Goto(s, t, Release).(locked := false)
    case Release => s' == Goto(s, t, Out).(mutex := None)
  }

  ghost predicate Next(s: State, s': State) {
    exists t: Tid :: t < |s.pc| && ThreadStep(s, s', t)
  }

  ghost predicate Run(threads: nat, run: seq<State>) {
    |run| > 0 && Init(threads, run[0]) && forall i :: 0 <= i < |run| - 1 ==> Next(run[i], run[i + 1])
  }

  ghost predicate Reachable(threads: nat, s: State) {
    exists run :: Run(threads, run) && run[|run| - 1] == s
  }

  predicate OwnsMutex(pc: PC) {
    pc.SetFlag? || pc.Holding? || pc.ClearFlag? || pc.Release?
  }

  ghost predicate Inv(s: State) {
    && (forall t :: 0 <= t < |s.pc| ==> (OwnsMutex(s.pc[t]) <==> s.mutex == Some(t)))
    && (s.mutex.Some? ==> s.mutex.value < |s.pc|)
    && (s.locked <==> s.mutex.Some? && (s.pc[s.mutex.value].Holding? || s.pc[s.mutex.value].ClearFlag?))
  }

  lemma {:induction false} RunKeepsInv(threads: nat, run: seq<State>, i: nat)
    requires Run(threads, run) && i < |run|
    ensures Inv(run[i]) && |run[i].pc| == threads
  {
    if i > 0 {
      RunKeepsInv(threads, run, i - 1);
      assert Next(run[i - 1], run[i - 1 + 1]);
    }
  }

  lemma ReachableInv(threads: nat, s: State)
    requires Reachable(threads, s)
    ensures Inv(s) && |s.pc| == threads
  {
    var run :| Run(threads, run) && run[|run| - 1] == s;
    RunKeepsInv(threads, run, |run| - 1);
  }

  /** At most one thread is between the return of a locking call and its call of unlock. */
  lemma MutualExclusion(threads: nat, s: State, t: Tid, u: Tid)
    requires Reachable(threads, s) && t < |s.pc| && u < |s.pc| && s.pc[t].Holding? && OwnsMutex(s.pc[u])
    ensures t == u
  {
    ReachableInv(threads, s);
  }

  /** is_locked may be wrong only while the owner is inside a locking call or inside unlock. */
  lemma FlagLags(threads: nat, s: State)
    requires Reachable(threads, s)
    ensures s.locked ==> s.mutex.Some?
    ensures !s.locked && s.mutex.Some? ==>
      s.mutex.value < |s.pc| && (s.pc[s.mutex.value].SetFlag? || s.pc[s.mutex.value].Release?)
  {
    ReachableInv(threads, s);
  }

  /** What a reader relies on: if is_locked answers false, no thread holds the lock. */
  lemma HeldIsLocked(threads: nat, s: State, t: Tid)
    requires Reachable(threads, s) && t < |s.pc| && !s.locked
    ensures !s.pc[t].Holding?
  {
    ReachableInv(threads, s);
  }

  function Held(s: State): seq<bool> {
    seq(|s.pc|, i requires 0 <= i < |s.pc| => s.pc[i].Holding?)
  }

  /** The lock is as the delegation protocol assumes, although its flag lags. */
  lemma MeetsContract(threads: nat, s: State, s': State, t: Tid, h: Option<Tid>) returns (h': Option<Tid>)
    requires Reachable(threads, s) && t < |s.pc| && ThreadStep(s, s', t) && HeldBy(Held(s), h)
    ensures HeldBy(Held(s'), h') && Permitted(h, h', t)
    ensures !s.locked ==> h == None
  {
    ReachableInv(threads, s);
    h' := OneChange(Held(s), h, t, s'.pc[t].Holding?);
    assert Held(s') == Held(s)[t := s'.pc[t].Holding?];
  }

  /** lock takes a free mutex and then sets the flag; try_lock goes for the mutex exactly if the flag is not set. */
  lemma CallsAnswer(threads: nat, s: State, s': State, t: Tid)
    requires Reachable(threads, s) && t < |s.pc| && ThreadStep(s, s', t)
    ensures t < |s'.pc|
    ensures s.pc[t].Lock? && s.mutex == None ==> s'.pc[t].SetFlag? && s'.mutex == Some(t)
    ensures s.pc[t].Check? ==> s'.pc[t] == if s.locked then Out else TryMutex
    ensures s.pc[t].Check? && s'.pc[t].Out? ==> s.mutex.Some? && s.mutex != Some(t)
    ensures s.pc[t].TryMutex? && !s'.pc[t].Out? ==> s'.pc[t].SetFlag? && s'.mutex == Some(t)
    ensures s.pc[t].TryMutex? && s.mutex == None ==> ThreadStep(s, Goto(s, t, SetFlag).(mutex := Some(t)), t)
    ensures s.pc[t].SetFlag? ==> s'.pc[t].Holding? && s'.locked
  {
    ReachableInv(threads, s);
  }

  /** unlock clears the flag before it gives the mutex back. */
  lemma UnlockEnds(threads: nat, s: State, s': State, t: Tid)
    requires Reachable(threads, s) && t < |s.pc| && ThreadStep(s, s', t) && (s.pc[t].ClearFlag? || s.pc[t].Release?)
    ensures t < |s'.pc| && !s'.locked
    ensures if s.pc[t].ClearFlag? then s'.pc[t].Release? && s'.mutex == Some(t) else s'.pc[t].Out? && s'.mutex == None
  {
    ReachableInv(threads, s);
  }
}
