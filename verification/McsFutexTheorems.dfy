/** What mcs_futex_lock promises, for every reachable state. */
module McsFutexTheorems {
  import opened Prelude
  import opened McsFutexLock
  import opened McsFutexSteps
  import opened LockContract

  /** Between the return of a locking call and the next call of unlock there is one holder. */
  lemma MutualExclusion(threads: nat, s: State, t: Tid, u: Tid)
    requires Reachable(threads, s) && t < |s.pc| && u < |s.pc| && s.pc[t].Holding? && Owner(s.pc[u])
    ensures t == u
  {
    ReachableInv(threads, s);
    assert ThreadOk(threads, s, t) && ThreadOk(threads, s, u);
  }

  /** While the lock is held, is_locked answers true; while the word is free, nobody is in the chain. */
  lemma HeldIsLocked(threads: nat, s: State, t: Tid)
    requires Reachable(threads, s) && t < |s.pc|
    ensures s.pc[t].Holding? ==> s.word != FREE
    ensures s.word == FREE ==> !Member(s.pc[t])
  {
    ReachableInv(threads, s);
    assert ThreadOk(threads, s, t);
  }

  /** Locking calls succeed in exactly the order of the CASes on the word; at most the chain is outstanding. */
  lemma FifoAcquisition(threads: nat, s: State)
    requires Reachable(threads, s)
    ensures s.got <= s.joined
    ensures forall t :: 0 <= t < |s.pc| && Member(s.pc[t]) && !Owner(s.pc[t]) ==>
        |s.got| <= s.slot[t] < |s.joined| && s.joined[s.slot[t]] == t
  {
    ReachableInv(threads, s);
    forall t | 0 <= t < |s.pc| && Member(s.pc[t]) && !Owner(s.pc[t])
      ensures |s.got| <= s.slot[t] < |s.joined| && s.joined[s.slot[t]] == t
    {
      assert ThreadOk(threads, s, t);
    }
  }

  /** The chain: distinct threads, linked node by node, a missing link being one its successor is about to store. */
  lemma ChainShape(threads: nat, s: State, i: nat)
    requires Reachable(threads, s) && s.left <= i < |s.joined|
    ensures s.joined[i] < |s.pc| && Member(s.pc[s.joined[i]])
    ensures forall j :: s.left <= j < |s.joined| && s.joined[j] == s.joined[i] ==> j == i
    ensures Owner(s.pc[s.joined[i]]) ==> i == s.left
    ensures i == |s.joined| - 1 ==> s.word.ptr == Some(s.joined[i]) && s.nodes[s.joined[i]].next == None
    ensures i < |s.joined| - 1 && s.joined[i + 1] < |s.pc| ==>
      || s.nodes[s.joined[i]].next == Some(s.joined[i + 1])
      || (s.nodes[s.joined[i]].next == None
          && (s.pc[s.joined[i + 1]] == Lock(SetTaken(s.joined[i])) || s.pc[s.joined[i + 1]] == Lock(Link(s.joined[i]))))
  {
    ReachableInv(threads, s);
    assert PlaceOk(threads, s, i) && ThreadOk(threads, s, s.joined[i]);
    forall j | s.left <= j < |s.joined| && s.joined[j] == s.joined[i] ensures j == i {
      assert PlaceOk(threads, s, j);
    }
    if i < |s.joined| - 1 {
      assert PlaceOk(threads, s, i + 1) && ThreadOk(threads, s, s.joined[i + 1]);
    }
  }

  /** No lost wake-up on a node: a sleeper's node is marked contended or its notification is on its way. */
  lemma NodeSleeperIsWoken(threads: nat, s: State, t: Tid)
    requires Reachable(threads, s) && t < |s.pc| && s.pc[t] == Lock(Wait(Asleep))
    ensures s.nodes[t].field == Contended || WillWake(s, t)
    ensures s.nodes[t].field == Free ==> WillWake(s, t)
  {
    ReachableInv(threads, s);
  }

  /** No lost wake-up on the word: a sleeper implies the flag or a notification of all sleepers on its way. */
  lemma WordSleeperIsWoken(threads: nat, s: State, t: Tid)
    requires Reachable(threads, s) && t < |s.pc| && s.pc[t] == Try(AsleepWord)
    ensures s.word.flag || WillWakeAll(s)
    ensures s.word == FREE ==> WillWakeAll(s)
  {
    ReachableInv(threads, s);
  }

  /** The word is never the bare flag, and unlock is inside itself at most once. */
  lemma TaggedWord(threads: nat, s: State, t: Tid)
    requires Reachable(threads, s)
    ensures s.word != Word(None, true)
    ensures t < |s.pc| && s.pc[t].Unlock? && s.pc[t].up.ReadNext? ==> s.pc[t].up.depth <= 1
    ensures t < |s.pc| && s.pc[t].Unlock? && s.pc[t].up.CasFree? && s.pc[t].up.depth == 1 ==>
        s.pc[t].up.sleep && s.word.flag
  {
    ReachableInv(threads, s);
    if t < |s.pc| {
      assert ThreadOk(threads, s, t);
    }
  }

  /** The flag, once set, stays until the CAS that frees the word, and that CAS is followed by a notification. */
  lemma FlagStays(threads: nat, s: State, s': State, t: Tid)
    requires Reachable(threads, s) && t < |s.pc| && ThreadStep(threads, s, s', t) && s.word.flag && !s'.word.flag
    ensures s.pc[t].Unlock? && s.pc[t].up.CasFree? && s.word.ptr == Some(t) && s'.word == FREE
    ensures s'.pc[t] == Unlock(NotifyAll)
  {
    ReachableInv(threads, s);
    assert ThreadOk(threads, s, t);
    if ReleaseStep(threads, s, s', t) {
    } else if HandStep(threads, s, s', t) {
      assert false;
    } else if LockStep(threads, s, s', t) {
      assert false;
    } else if TryStep(threads, s, s', t) {
      assert false;
    } else {
      assert false;
    }
  }

  // ---------- progress ----------

  predicate InCall(pc: PC) {
    !pc.Out? && !pc.Holding?
  }

  /** Asleep, or spinning on a link that is not there yet. */
  ghost predicate Blocked(s: State, t: Tid)
    requires t < |s.pc| && t < |s.nodes|
  {
    || s.pc[t] == Lock(Wait(Asleep))
    || s.pc[t] == Try(AsleepWord)
    || (s.pc[t] == Unlock(Await) && s.nodes[t].next.None?)
  }

  /**
   * Every wait traces back to a thread that can move: if the lock is taken, a thread that holds it,
   * is taking it over, is linking itself, or is about to wake the next owner; otherwise any caller
   * that is not asleep, or a thread about to wake the sleepers.
   */
  lemma WhoMoves(threads: nat, s: State, t: Tid) returns (u: Tid)
    requires Inv(threads, s) && t < threads && (InCall(s.pc[t]) || s.pc[t].Holding?)
    ensures u < threads && (s.pc[u].Holding? || (InCall(s.pc[u]) && !Blocked(s, u)))
    ensures s.word != FREE ==> Member(s.pc[u]) || Done(s.pc[u])
  {
    if s.left < |s.joined| {
      u := HeadMoves(threads, s);
    } else {
      assert ThreadOk(threads, s, t);
      u := t;
      if s.pc[t] == Try(AsleepWord) {
        u :| u < |s.pc| && s.pc[u] == Unlock(NotifyAll);
      }
    }
  }

  lemma HeadMoves(threads: nat, s: State) returns (u: Tid)
    requires Inv(threads, s) && s.left < |s.joined|
    ensures u < threads && (s.pc[u].Holding? || (InCall(s.pc[u]) && !Blocked(s, u)))
    ensures Member(s.pc[u]) || Done(s.pc[u])
  {
    u := s.joined[s.left];
    assert PlaceOk(threads, s, s.left) && ThreadOk(threads, s, u);
    if s.pc[u] == Lock(Wait(Asleep)) {
      var h := u;
      assert WillWake(s, h);
      u :| u < |s.pc| && s.pc[u] == Unlock(NotifyOne(h));
    } else if s.pc[u] == Unlock(Await) && s.nodes[u].next.None? {
      u := s.joined[s.left + 1];
      assert PlaceOk(threads, s, s.left + 1) && ThreadOk(threads, s, u);
    }
  }

  /** The lock itself never deadlocks: if somebody is inside a call, somebody can move. */
  lemma LockNeverStuck(threads: nat, s: State, t: Tid)
    requires Reachable(threads, s) && t < |s.pc| && InCall(s.pc[t])
    ensures exists u: Tid :: u < |s.pc| && u < |s.nodes| && (s.pc[u].Holding? || (InCall(s.pc[u]) && !Blocked(s, u)))
  {
    ReachableInv(threads, s);
    var u := WhoMoves(threads, s, t);
  }

  // ---------- the contract ----------

  function Held(s: State): seq<bool> {
    seq(|s.pc|, i requires 0 <= i < |s.pc| => s.pc[i].Holding?)
  }

  lemma OthersHoldOn(threads: nat, s: State, s': State, t: Tid, u: Tid)
    requires Shape(threads, s) && t < threads && u < threads && u != t && ThreadStep(threads, s, s', t)
    ensures |s'.pc| == |s.pc| && s'.pc[u].Holding? == s.pc[u].Holding?
  {
    if HandStep(threads, s, s', t) {
    } else if TryStep(threads, s, s', t) {
    } else if LockStep(threads, s, s', t) {
    } else if WaitStep(threads, s, s', t) {
    } else if ReleaseStep(threads, s, s', t) {
    } else {
    }
  }

  /** The lock is as the delegation protocol assumes. */
  lemma MeetsContract(threads: nat, s: State, s': State, t: Tid, h: Option<Tid>) returns (h': Option<Tid>)
    requires Reachable(threads, s) && t < |s.pc| && ThreadStep(threads, s, s', t) && HeldBy(Held(s), h)
    ensures HeldBy(Held(s'), h') && Permitted(h, h', t)
    ensures s.word == FREE ==> h == None
  {
    ReachableInv(threads, s);
    if h.Some? {
      HeldIsLocked(threads, s, h.value);
    }
    TakesFreeLock(threads, s, s', t, h);
    h' := OneChange(Held(s), h, t, s'.pc[t].Holding?);
    assert Held(s') == Held(s)[t := s'.pc[t].Holding?];
  }

  lemma TakesFreeLock(threads: nat, s: State, s': State, t: Tid, h: Option<Tid>)
    requires Inv(threads, s) && t < threads && ThreadStep(threads, s, s', t) && HeldBy(Held(s), h)
    ensures |s'.pc| == |s.pc|
    ensures forall u :: 0 <= u < threads && u != t ==> s'.pc[u].Holding? == s.pc[u].Holding?
    ensures s'.pc[t].Holding? && !s.pc[t].Holding? ==> h == None
  {
    StepKeepsInv(threads, s, s', t);
    forall u | 0 <= u < threads && u != t ensures s'.pc[u].Holding? == s.pc[u].Holding? {
      OthersHoldOn(threads, s, s', t, u);
    }
    assert ThreadOk(threads, s', t);
    if h.Some? {
      assert ThreadOk(threads, s', h.value);
    }
  }

  // ---------- what the calls answer ----------

  /** How far a locking call is from taking the lock while the word is free. */
  function ToTake(pc: PC): nat {
    match pc
    case Lock(Load) => 3
    case Lock(Cas(current)) => if current == FREE then 1 else 2
    case Try(IsLocked) => 2
    case Try(CasTry) => 1
    case Try(LoadWord) => 3
    case Try(CasFlag(_)) => 2
    case Try(CasTake(_)) => 1
    case _ => 0
  }

  /** While the word is free, every step of a locking call takes the lock or brings the call closer to taking it. */
  lemma TakesFreeWord(threads: nat, s: State, s': State, t: Tid)
    requires Reachable(threads, s) && t < |s.pc| && ThreadStep(threads, s, s', t) && s.word == FREE
    requires ToTake(s.pc[t]) > 0
    ensures t < |s'.pc|
    ensures s'.pc[t].Holding? || (s'.word == FREE && 0 < ToTake(s'.pc[t]) < ToTake(s.pc[t]))
  {
    ReachableInv(threads, s);
    assert ThreadOk(threads, s, t);
  }

  /**
   * try_lock answers false only if it finds the lock taken; try_lock_or_wait marks a taken word before its
   * system call, and sleeps if the word has not changed since.
   */
  lemma FalseMeansTaken(threads: nat, s: State, s': State, t: Tid)
    requires Reachable(threads, s) && t < |s.pc| && ThreadStep(threads, s, s', t) && s.pc[t].Try? && t < |s'.pc|
    ensures (s.pc[t].tp.IsLocked? || s.pc[t].tp.CasTry?) && s'.pc[t].Out? ==> s.word != FREE
    ensures s'.pc[t] != s.pc[t] && s'.pc[t].Try? && s'.pc[t].tp.FutexWord? ==> s.word != FREE && s'.word.flag
    ensures s.pc[t].tp.CasFlag? && s'.word != s.word ==> s'.word == s.word.(flag := true) == s'.pc[t].tp.flagged
    ensures s'.pc[t].Out? ==> ToTake(s.pc[t]) == 0 || s.pc[t].tp.IsLocked? || s.pc[t].tp.CasTry?
    ensures s.pc[t].tp.FutexWord? && s.word == s.pc[t].tp.flagged ==> s'.pc[t] == Try(AsleepWord)
  {
    ReachableInv(threads, s);
    assert ThreadOk(threads, s, t);
  }

  /** A waiter that comes to its system call sleeps exactly if its node is still marked contended. */
  lemma SleepsWhenContended(threads: nat, s: State, s': State, t: Tid)
    requires Reachable(threads, s) && t < |s.pc| == |s.nodes| && ThreadStep(threads, s, s', t)
    requires s.pc[t] == Lock(Wait(Futex))
    ensures t < |s'.pc| && (s'.pc[t] == Lock(Wait(Asleep)) <==> s.nodes[t].field == Contended)
    ensures s.nodes[t].field == Free || s.nodes[t].field == Contended
  {
    ReachableInv(threads, s);
    assert ThreadOk(threads, s, t);
  }

  function ToPass(wp: WaitPoint): nat {
    match wp
    case Poll(i) => if i < SPIN_LIMIT then 5 + (SPIN_LIMIT - i) else 5
    case Check => 4
    case Contend => 3
    case Futex => 2
    case Asleep => 2
    case Test => 1
  }

  /** The head of the chain, once it has been handed the lock, returns from lock by its own steps. */
  lemma HeadReturns(threads: nat, s: State, s': State, t: Tid)
    requires Reachable(threads, s) && t < |s.pc| && ThreadStep(threads, s, s', t)
    requires Linked(s.pc[t]) && t < |s.slot| && s.slot[t] == s.left
    ensures t < |s'.pc|
    ensures s'.pc[t].Holding? || (Linked(s'.pc[t]) && ToPass(s'.pc[t].lp.wp) < ToPass(s.pc[t].lp.wp))
  {
    ReachableInv(threads, s);
    assert ThreadOk(threads, s, t);
  }

  /** How far unlock is from its end, its one possible call of itself included. */
  function UnlockRank(up: UnlockPoint): int {
    match up
    case ReadNext(d) => 12 - 3 * d
    case ReadFlag(d) => 11 - 3 * d
    case CasFree(_, d) => 10 - 3 * d
    case Await => 6
    case HandOver(_) => 5
    case NotifyOne(_) => 4
    case NotifyAll => 3
    case ClearNext => 2
  }

  /** unlock ends by its own steps, waiting at most for the link of a thread that has joined behind. */
  lemma UnlockEnds(threads: nat, s: State, s': State, t: Tid)
    requires Reachable(threads, s) && t < |s.pc| == |s.nodes| && ThreadStep(threads, s, s', t) && s.pc[t].Unlock?
    requires s.pc[t].up.Await? ==> s.nodes[t].next.Some?
    ensures t < |s'.pc|
    ensures s'.pc[t].Out? || (s'.pc[t].Unlock? && 0 <= UnlockRank(s'.pc[t].up) < UnlockRank(s.pc[t].up))
  {
    ReachableInv(threads, s);
    if ReleaseStep(threads, s, s', t) {
      ReleaseAdvances(threads, s, s', t);
    } else {
      HandAdvances(threads, s, s', t);
    }
  }

  lemma ReleaseAdvances(threads: nat, s: State, s': State, t: Tid)
    requires Inv(threads, s) && t < threads && ReleaseStep(threads, s, s', t)
    ensures t < |s'.pc|
    ensures s'.pc[t].Out? || (s'.pc[t].Unlock? && 0 <= UnlockRank(s'.pc[t].up) < UnlockRank(s.pc[t].up))
  {
    assert ThreadOk(threads, s, t);
  }

  lemma HandAdvances(threads: nat, s: State, s': State, t: Tid)
    requires Shape(threads, s) && t < threads && s.pc[t].Unlock? && ThreadStep(threads, s, s', t)
    requires !ReleaseStep(threads, s, s', t)
    requires s.pc[t].up.Await? ==> s.nodes[t].next.Some?
    ensures t < |s'.pc|
    ensures s'.pc[t].Out? || (s'.pc[t].Unlock? && 0 <= UnlockRank(s'.pc[t].up) < UnlockRank(s.pc[t].up))
  {
    assert HandStep(threads, s, s', t);
  }
}
