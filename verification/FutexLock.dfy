/**
 * futex_lock: one word with three states, and threads that sleep in the kernel while it
 * is contended. One step per atomic access or futex call, any number of threads.
 */
module FutexLock {
  import opened Prelude
  import opened LockContract

  datatype Field = Free | Taken | Contended

  datatype PC =
    | Out
    | Holding
    | Lock(lp: LockPoint)
    | Unlock(up: UnlockPoint)
    | Try(tp: TryPoint)
    | TryOrWait(wp: WaitPoint)

  datatype LockPoint = Cas | Exchange | Futex | Asleep
  datatype UnlockPoint = Release | NotifyAll
  datatype TryPoint = IsLocked | CasTaken
  datatype WaitPoint = Load | CasFree | Mark | Wait | Sleep

  datatype State = State(locked: Field, pc: seq<PC>)

  ghost predicate Init(threads: nat, s: State) {
    |s.pc| == threads && s.locked == Free && forall t :: 0 <= t < threads ==> s.pc[t] == Out
  }

  function Goto(s: State, t: Tid, pc: PC): State
    requires t < |s.pc|
  {
    s.(pc := s.pc[t := pc])
  }

  ghost predicate CallStep(s: State, s': State, t: Tid)
    requires t < |s.pc|
  {
    || (s.pc[t].Out? && s' == Goto(s, t, Lock(Cas)))
    || (s.pc[t].Out? && s' == Goto(s, t, Try(IsLocked)))
    || (s.pc[t].Out? && s' == Goto(s, t, TryOrWait(Load)))
    || (s.pc[t].Holding? && s' == Goto(s, t, Unlock(Release)))
  }

  /** The system call sleeps if the word is contended, and may return for no reason. */
  ghost predicate LockStep(s: State, s': State, t: Tid)
    requires t < |s.pc|
  {
    match s.pc[t]
    case Lock(Cas) =>
      if s.locked == Free then s' == Goto(s, t, Holding).(locked := Taken)
      else s' == Goto(s, t, Lock(if s.locked == Contended then Futex else Exchange))
    case Lock(Exchange) =>
      s' == Goto(s, t, if s.locked == Free then Holding else Lock(Futex)).(locked := Contended)
    case Lock(Futex) => s' == Goto(s, t, Lock(if s.locked == Contended then Asleep else Exchange))
    case Lock(Asleep) => s' == Goto(s, t, Lock(Exchange))
    case _ => false
  }

  function WakeAll(pc: seq<PC>): seq<PC> {
    seq(|pc|, i requires 0 <= i < |pc| => if pc[i] == Lock(Asleep) then Lock(Exchange)
        else if pc[i] == TryOrWait(Sleep) then Out else pc[i])
  }

  ghost predicate UnlockStep(s: State, s': State, t: Tid)
    requires t < |s.pc|
  {
    match s.pc[t]
    case Unlock(Release) =>
      s' == Goto(s, t, if s.locked == Contended then Unlock(NotifyAll) else Out).(locked := Free)
    case Unlock(NotifyAll) => s' == Goto(s.(pc := WakeAll(s.pc)), t, Out)
    case _ => false
  }

  ghost predicate TryStep(s: State, s': State, t: Tid)
    requires t < |s.pc|
  {
    match s.pc[t]
    case Try(IsLocked) => s' == Goto(s, t, if s.locked == Free then Try(CasTaken) else Out)
    case Try(CasTaken) =>
      s' == if s.locked == Free then Goto(s, t, Holding).(locked := Taken) else Goto(s, t, Out)
    case _ => false
  }

  /** Where try_lock_or_wait goes when it has seen a locked word. */
  function AfterSeen(seen: Field): PC {
    TryOrWait(if seen == Contended then Wait else Mark)
  }

  ghost predicate WaitStep(s: State, s': State, t: Tid)
    requires t < |s.pc|
  {
    match s.pc[t]
    case TryOrWait(Load) => s' == Goto(s, t, if s.locked == Free then TryOrWait(CasFree) else AfterSeen(s.locked))
    case TryOrWait(CasFree) =>
      s' == if s.locked == Free then Goto(s, t, Holding).(locked := Taken) else Goto(s, t, AfterSeen(s.locked))
    case TryOrWait(Mark) =>
      s' == Goto(s, t, if s.locked == Free then Holding else TryOrWait(Wait)).(locked := Contended)
    case TryOrWait(Wait) => s' == Goto(s, t, if s.locked == Contended then TryOrWait(Sleep) else Out)
    case TryOrWait(Sleep) => s' == Goto(s, t, Out)
    case _ => false
  }

  ghost predicate ThreadStep(s: State, s': State, t: Tid)
    requires t < |s.pc|
  {
    CallStep(s, s', t) || LockStep(s, s', t) || UnlockStep(s, s', t) || TryStep(s, s', t) || WaitStep(s, s', t)
  }

  ghost predicate Next(s: State, s': State) {
    exists t: Tid :: t < |s.pc| && ThreadStep(s, s', t)
  }

  ghost predicate Run(threads: nat, run: seq<State>) {
    |run| > 0 && Init(threads, run[0]) && forall i :: 0 <= i < |run| - 1 ==> Next(run[i], run[i + 1])
  }

  ghost predicate Reachable(threads: nat, s: State) {
    exists run :: Run(threads, run) && run[|run| - 1] == s
  }

  // ---------- the invariant ----------

  /** Owning the lock: from the access that took it to the exchange that frees it. */
  predicate Owner(pc: PC) {
    pc.Holding? || pc == Unlock(Release)
  }

  predicate Sleeping(pc: PC) {
    pc == Lock(Asleep) || pc == TryOrWait(Sleep)
  }

  ghost predicate WillNotify(pc: seq<PC>) {
    Somewhere(pc, Unlock(NotifyAll))
  }

  ghost predicate Owned(pc: seq<PC>) {
    exists u: Tid :: u < |pc| && Owner(pc[u])
  }

  ghost predicate OneOwner(pc: seq<PC>) {
    forall t, u :: 0 <= t < |pc| && 0 <= u < |pc| && Owner(pc[t]) && Owner(pc[u]) ==> t == u
  }

  ghost predicate Watched(s: State) {
    forall t :: 0 <= t < |s.pc| && Sleeping(s.pc[t]) ==> s.locked == Contended || WillNotify(s.pc)
  }

  ghost predicate Inv(s: State) {
    && OneOwner(s.pc)
    && (s.locked != Free <==> Owned(s.pc))
    && Watched(s)
  }

  /** A step that does not touch ownership. */
  lemma OwnersSame(pc: seq<PC>, t: Tid, x: PC)
    requires t < |pc| && Owner(x) == Owner(pc[t]) && OneOwner(pc)
    ensures OneOwner(pc[t := x]) && Owned(pc[t := x]) == Owned(pc)
  {
    if Owned(pc) {
      var u: Tid :| u < |pc| && Owner(pc[u]);
      assert Owner(pc[t := x][u]);
    }
  }

  lemma OwnerJoins(pc: seq<PC>, t: Tid, x: PC)
    requires t < |pc| && Owner(x) && !Owned(pc)
    ensures OneOwner(pc[t := x]) && Owned(pc[t := x])
  {
    assert Owner(pc[t := x][t]);
  }

  lemma OwnerLeaves(pc: seq<PC>, t: Tid, x: PC)
    requires t < |pc| && Owner(pc[t]) && !Owner(x) && OneOwner(pc)
    ensures OneOwner(pc[t := x]) && !Owned(pc[t := x])
  {
  }

  lemma WatchedKept(s: State, s': State, t: Tid)
    requires t < |s.pc| == |s'.pc| && s'.pc == s.pc[t := s'.pc[t]] && Watched(s) && s.pc[t] != Unlock(NotifyAll)
    requires s.locked == Contended ==> s'.locked == Contended || s'.pc[t] == Unlock(NotifyAll)
    requires Sleeping(s'.pc[t]) ==> s'.locked == Contended
    ensures Watched(s')
  {
    if WillNotify(s.pc) {
      StaysSomewhere(s.pc, Unlock(NotifyAll), t, s'.pc[t]);
    }
    if s'.pc[t] == Unlock(NotifyAll) {
      assert WillNotify(s'.pc);
    }
  }

  lemma StepKeepsOwners(s: State, s': State, t: Tid)
    requires t < |s.pc| && Inv(s) && ThreadStep(s, s', t) && s.pc[t] != Unlock(NotifyAll)
    ensures OneOwner(s'.pc) && (s'.locked != Free <==> Owned(s'.pc))
  {
    var x := s'.pc[t];
    assert s'.pc == s.pc[t := x];
    if Owner(x) == Owner(s.pc[t]) {
      OwnersSame(s.pc, t, x);
    } else if Owner(x) {
      OwnerJoins(s.pc, t, x);
    } else {
      OwnerLeaves(s.pc, t, x);
    }
  }

  lemma NotifyKeeps(s: State, s': State, t: Tid)
    requires t < |s.pc| && Inv(s) && UnlockStep(s, s', t) && s.pc[t] == Unlock(NotifyAll)
    ensures Inv(s')
  {
    assert forall u :: 0 <= u < |s.pc| ==> Owner(s'.pc[u]) == Owner(s.pc[u]) && !Sleeping(s'.pc[u]);
    if Owned(s.pc) {
      var u: Tid :| u < |s.pc| && Owner(s.pc[u]);
      assert Owner(s'.pc[u]);
    }
  }

  lemma StepKeepsInv(s: State, s': State, t: Tid)
    requires t < |s.pc| && Inv(s) && ThreadStep(s, s', t)
    ensures Inv(s') && |s'.pc| == |s.pc|
  {
    if s.pc[t] == Unlock(NotifyAll) {
      NotifyKeeps(s, s', t);
    } else {
      StepKeepsOwners(s, s', t);
      WatchedKept(s, s', t);
    }
  }

  lemma {:induction false} RunKeepsInv(threads: nat, run: seq<State>, i: nat)
    requires Run(threads, run) && i < |run|
    ensures Inv(run[i]) && |run[i].pc| == threads
  {
    if i > 0 {
      RunKeepsInv(threads, run, i - 1);
      assert Next(run[i - 1], run[i - 1 + 1]);
      var t: Tid :| t < |run[i - 1].pc| && ThreadStep(run[i - 1], run[i], t);
      StepKeepsInv(run[i - 1], run[i], t);
    }
  }

  lemma ReachableInv(threads: nat, s: State)
    requires Reachable(threads, s)
    ensures Inv(s) && |s.pc| == threads
  {
    var run :| Run(threads, run) && run[|run| - 1] == s;
    RunKeepsInv(threads, run, |run| - 1);
  }

  // ---------- what the lock promises ----------

  /** The word is not free exactly while one thread, and only one, owns the lock. */
  lemma LockedIffOwned(threads: nat, s: State)
    requires Reachable(threads, s)
    ensures s.locked != Free <==> exists t: Tid :: t < threads && t < |s.pc| && Owner(s.pc[t])
    ensures forall t, u :: 0 <= t < |s.pc| && 0 <= u < |s.pc| && Owner(s.pc[t]) && Owner(s.pc[u]) ==> t == u
  {
    ReachableInv(threads, s);
    if s.locked != Free {
      var u: Tid :| u < |s.pc| && Owner(s.pc[u]);
    }
  }

  /** A locking call succeeds only if nobody owns the lock. */
  lemma TakenOnlyWhenFree(threads: nat, s: State, s': State, t: Tid, u: Tid)
    requires Reachable(threads, s) && t < |s.pc| && u < |s.pc| && ThreadStep(s, s', t)
    requires t < |s'.pc| && s'.pc[t].Holding?
    ensures s.locked == Free && !Owner(s.pc[u])
  {
    ReachableInv(threads, s);
  }

  /**
   * No lost wake-up: behind every sleeper there is an awake owner that will see the mark, or a notification on
   * its way.
   */
  lemma SleeperHasWaker(threads: nat, s: State, t: Tid) returns (u: Tid)
    requires Reachable(threads, s) && t < |s.pc| && Sleeping(s.pc[t])
    ensures u < |s.pc|
    ensures s.pc[u] == Unlock(NotifyAll) || (Owner(s.pc[u]) && s.locked == Contended)
    ensures s.locked == Free ==> s.pc[u] == Unlock(NotifyAll)
  {
    ReachableInv(threads, s);
    if WillNotify(s.pc) {
      u :| u < |s.pc| && s.pc[u] == Unlock(NotifyAll);
    } else {
      u :| u < |s.pc| && Owner(s.pc[u]);
    }
  }

  /** The mark is lifted only by the owner, and then the notification follows. */
  lemma MarkStays(threads: nat, s: State, s': State, t: Tid)
    requires Reachable(threads, s) && t < |s.pc| && ThreadStep(s, s', t) && s.locked == Contended
    requires s'.locked != Contended
    ensures s.pc[t] == Unlock(Release) && s'.locked == Free && t < |s'.pc| && s'.pc[t] == Unlock(NotifyAll)
  {
    ReachableInv(threads, s);
    assert Owned(s.pc);
  }

  /** A step by a thread that is awake; true of every thread inside a call except the sleepers. */
  ghost predicate CanMove(s: State, u: Tid) {
    u < |s.pc| && !Sleeping(s.pc[u]) && exists s' :: s' != s && ThreadStep(s, s', u)
  }

  /** If some call is unfinished, a thread that is awake can move. */
  lemma NeverStuck(threads: nat, s: State, t: Tid)
    requires Reachable(threads, s) && t < |s.pc| && !s.pc[t].Out?
    ensures exists u: Tid :: CanMove(s, u)
  {
    var u := t;
    if Sleeping(s.pc[t]) {
      u := SleeperHasWaker(threads, s, t);
    }
    AwakeMoves(s, u);
  }

  lemma AwakeMoves(s: State, u: Tid)
    requires u < |s.pc| && !s.pc[u].Out? && !Sleeping(s.pc[u])
    ensures CanMove(s, u)
  {
    var s' := match s.pc[u]
      case Holding => Goto(s, u, Unlock(Release))
      case Lock(Cas) =>
        if s.locked == Free then Goto(s, u, Holding).(locked := Taken)
        else Goto(s, u, Lock(if s.locked == Contended then Futex else Exchange))
      case Lock(Exchange) => Goto(s, u, if s.locked == Free then Holding else Lock(Futex)).(locked := Contended)
      case Lock(Futex) => Goto(s, u, Lock(if s.locked == Contended then Asleep else Exchange))
      case Unlock(Release) => Goto(s, u, if s.locked == Contended then Unlock(NotifyAll) else Out).(locked := Free)
      case Unlock(NotifyAll) => Goto(s.(pc := WakeAll(s.pc)), u, Out)
      case Try(IsLocked) => Goto(s, u, if s.locked == Free then Try(CasTaken) else Out)
      case Try(CasTaken) => if s.locked == Free then Goto(s, u, Holding).(locked := Taken) else Goto(s, u, Out)
      case TryOrWait(Load) => Goto(s, u, if s.locked == Free then TryOrWait(CasFree) else AfterSeen(s.locked))
      case TryOrWait(CasFree) => if s.locked == Free then Goto(s, u, Holding).(locked := Taken)
          else Goto(s, u, AfterSeen(s.locked))
      case TryOrWait(Mark) => Goto(s, u, if s.locked == Free then Holding else TryOrWait(Wait)).(locked := Contended)
      case TryOrWait(Wait) => Goto(s, u, if s.locked == Contended then TryOrWait(Sleep) else Out);
    assert ThreadStep(s, s', u);
    assert s'.pc[u] != s.pc[u];
  }

  function Held(s: State): seq<bool> {
    seq(|s.pc|, i requires 0 <= i < |s.pc| => s.pc[i].Holding?)
  }

  /** Only the moving thread starts or stops to hold, and it starts only if nobody owned the lock. */
  lemma HeldChanges(s: State, s': State, t: Tid)
    requires t < |s.pc| && Inv(s) && ThreadStep(s, s', t)
    ensures |s'.pc| == |s.pc|
    ensures forall u :: 0 <= u < |s.pc| && u != t ==> s'.pc[u].Holding? == s.pc[u].Holding?
    ensures s'.pc[t].Holding? && !s.pc[t].Holding? ==> !Owned(s.pc)
  {
    if s.pc[t] != Unlock(NotifyAll) {
      assert s'.pc == s.pc[t := s'.pc[t]];
    }
  }

  /** The lock is as the delegation protocol assumes. */
  lemma MeetsContract(threads: nat, s: State, s': State, t: Tid, h: Option<Tid>) returns (h': Option<Tid>)
    requires Reachable(threads, s) && t < |s.pc| && ThreadStep(s, s', t) && HeldBy(Held(s), h)
    ensures HeldBy(Held(s'), h') && Permitted(h, h', t)
    ensures s.locked == Free ==> h == None
  {
    ReachableInv(threads, s);
    if h.Some? {
      assert Owner(s.pc[h.value]);
    }
    HeldChanges(s, s', t);
    h' := OneChange(Held(s), h, t, s'.pc[t].Holding?);
    assert Held(s') == Held(s)[t := s'.pc[t].Holding?];
  }

  // ---------- what the calls answer ----------

  /** How far a locking call is from taking the lock while it is free; waiting calls of try_lock_or_wait only return. */
  function ToTake(pc: PC): nat {
    match pc
    case Lock(Cas) => 1
    case Lock(Exchange) => 1
    case Lock(Futex) => 2
    case Lock(Asleep) => 2
    case Try(IsLocked) => 2
    case Try(CasTaken) => 1
    case TryOrWait(Load) => 2
    case TryOrWait(CasFree) => 1
    case TryOrWait(Mark) => 1
    case _ => 0
  }

  /** While the lock is free, every step of a locking call takes it or brings the call closer to taking it. */
  lemma TakesFreeLock(s: State, s': State, t: Tid)
    requires t < |s.pc| && ThreadStep(s, s', t) && s.locked == Free && ToTake(s.pc[t]) > 0
    ensures t < |s'.pc|
    ensures s'.pc[t].Holding? || (s'.locked == Free && 0 < ToTake(s'.pc[t]) < ToTake(s.pc[t]))
  {
  }

  /**
   * try_lock answers false only if it finds the lock taken; try_lock_or_wait gives up only after it has found
   * it taken.
   */
  lemma FalseMeansTaken(s: State, s': State, t: Tid)
    requires t < |s.pc| && ThreadStep(s, s', t) && (s.pc[t].Try? || s.pc[t].TryOrWait?) && t < |s'.pc|
    ensures s.pc[t].Try? && s'.pc[t].Out? ==> s.locked != Free
    ensures s.pc[t].TryOrWait? && ToTake(s.pc[t]) > 0 && !s'.pc[t].Holding? && !s'.pc[t].wp.CasFree? ==>
      s.locked != Free
    ensures s.pc[t].TryOrWait? && s'.pc[t].Out? ==> s.pc[t].wp.Wait? || s.pc[t].wp.Sleep?
    ensures s.pc[t] == TryOrWait(Wait) && s.locked == Contended ==> s'.pc[t] == TryOrWait(Sleep)
  {
  }

  /** A thread that comes to its system call sleeps exactly if the word is still contended. */
  lemma SleepsWhenContended(s: State, s': State, t: Tid)
    requires t < |s.pc| && ThreadStep(s, s', t) && (s.pc[t] == Lock(Futex) || s.pc[t] == TryOrWait(Wait))
    ensures t < |s'.pc| && (Sleeping(s'.pc[t]) <==> s.locked == Contended) && s'.locked == s.locked
  {
  }

  /**
   * unlock ends after at most two steps, with the lock free after the first, and wakes everybody if it was
   * contended.
   */
  lemma UnlockEnds(s: State, s': State, t: Tid)
    requires t < |s.pc| && ThreadStep(s, s', t) && s.pc[t].Unlock?
    ensures t < |s'.pc|
    ensures s.pc[t].up.Release? ==>
      s'.locked == Free && s'.pc[t] == if s.locked == Contended then Unlock(NotifyAll) else Out
    ensures s.pc[t].up.NotifyAll? ==> s'.pc[t] == Out && forall u :: 0 <= u < |s'.pc| ==> !Sleeping(s'.pc[u])
  {
  }
}
