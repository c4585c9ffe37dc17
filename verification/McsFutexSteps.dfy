/** The invariant of mcs_futex_lock holds in every reachable state. */
module McsFutexSteps {
  import opened Prelude
  import opened McsFutexLock
  import opened McsFutexChain

  // ---------- the chain ----------

  lemma ChainOnCall(threads: nat, s: State, s': State, t: Tid)
    requires Shape(threads, s) && t < threads && Chain(threads, s) && CallStep(threads, s, s', t)
    ensures Shape(threads, s') && Chain(threads, s')
  {
    assert ThreadOk(threads, s, t);
    ChainLocal(threads, s, s', t);
  }

  lemma ChainOnLock(threads: nat, s: State, s': State, t: Tid)
    requires Shape(threads, s) && t < threads && Chain(threads, s) && LockStep(threads, s, s', t)
    ensures Shape(threads, s') && Chain(threads, s')
  {
    assert ThreadOk(threads, s, t);
    match s.pc[t].lp
    case Link(found) => ChainLinked(threads, s, t, found);
    case Cas(current) =>
      if s.word == current {
        ChainJoined(threads, s, s', t);
      } else {
        ChainLocal(threads, s, s', t);
      }
    case _ => ChainLocal(threads, s, s', t);
  }

  lemma ChainOnWait(threads: nat, s: State, s': State, t: Tid)
    requires Shape(threads, s) && t < threads && Chain(threads, s) && WaitStep(threads, s, s', t)
    ensures Shape(threads, s') && Chain(threads, s')
  {
    assert ThreadOk(threads, s, t);
    ChainLocal(threads, s, s', t);
  }

  lemma ChainOnRelease(threads: nat, s: State, s': State, t: Tid)
    requires Shape(threads, s) && t < threads && Chain(threads, s) && ReleaseStep(threads, s, s', t)
    ensures Shape(threads, s') && Chain(threads, s')
  {
    assert ThreadOk(threads, s, t);
    if s'.left == s.left {
      if s.slot[t] + 1 < |s.joined| {
        assert PlaceOk(threads, s, s.slot[t] + 1);
      }
      ChainLocal(threads, s, s', t);
    } else {
      ChainFreed(threads, s, s', t);
    }
  }

  lemma ChainOnHand(threads: nat, s: State, s': State, t: Tid)
    requires Shape(threads, s) && t < threads && Chain(threads, s) && HandStep(threads, s, s', t)
    ensures Shape(threads, s') && Chain(threads, s')
  {
    assert ThreadOk(threads, s, t);
    match s.pc[t].up
    case NotifyAll =>
      var s1 := s.(pc := WakeAll(s.pc));
      ChainWoken(threads, s, s1);
      ChainLocal(threads, s1, s', t);
    case NotifyOne(n) =>
      var s1 := s.(pc := WakeOne(s.pc, n));
      ChainWoken(threads, s, s1);
      ChainLocal(threads, s1, s', t);
    case HandOver(n) => ChainHanded(threads, s, s', t, n);
    case _ => ChainLocal(threads, s, s', t);
  }

  lemma ChainOnTry(threads: nat, s: State, s': State, t: Tid)
    requires Shape(threads, s) && t < threads && Chain(threads, s) && TryStep(threads, s, s', t)
    ensures Shape(threads, s') && Chain(threads, s')
  {
    assert ThreadOk(threads, s, t);
    if s'.joined == s.joined {
      ChainLocal(threads, s, s', t);
    } else {
      ChainJoined(threads, s, s', t);
    }
  }

  // ---------- sleepers ----------

  /** No thread but t moves, t does not give up a notification, and no mark is removed. */
  lemma SleepersLocal(threads: nat, s: State, s': State, t: Tid)
    requires Shape(threads, s) && Shape(threads, s') && t < threads && Sleepers(threads, s)
    requires s'.pc == s.pc[t := s'.pc[t]]
    requires !(s.pc[t].Unlock? && (s.pc[t].up.NotifyAll? || s.pc[t].up.NotifyOne?))
    requires s.word.flag ==> s'.word.flag
    requires forall u :: 0 <= u < threads && u != t ==> s'.nodes[u].field == s.nodes[u].field
    requires s'.pc[t] == Lock(Wait(Asleep)) ==> s'.nodes[t].field == Contended
    requires s'.pc[t] == Try(AsleepWord) ==> s'.word.flag
    ensures Sleepers(threads, s')
  {
    forall u | 0 <= u < threads && s'.pc[u] == Lock(Wait(Asleep))
        ensures s'.nodes[u].field == Contended || WillWake(s', u) {
      if u != t && WillWake(s, u) {
        var w: Tid :| w < |s.pc| && s.pc[w] == Unlock(NotifyOne(u));
        assert s'.pc[w] == Unlock(NotifyOne(u));
      }
    }
    forall u | 0 <= u < threads && s'.pc[u] == Try(AsleepWord) ensures s'.word.flag || WillWakeAll(s') {
      if u != t && WillWakeAll(s) {
        var w: Tid :| w < |s.pc| && s.pc[w] == Unlock(NotifyAll);
        assert s'.pc[w] == Unlock(NotifyAll);
      }
    }
  }

  /** Freeing the word or handing over: the released mark is replaced by a pending notification of t. */
  lemma SleepersReleased(threads: nat, s: State, s': State, t: Tid)
    requires Shape(threads, s) && Shape(threads, s') && t < threads && Sleepers(threads, s)
    requires s'.pc == s.pc[t := s'.pc[t]] && Releasing(s.pc[t])
    requires s'.pc[t] != Lock(Wait(Asleep)) && s'.pc[t] != Try(AsleepWord)
    requires s.word.flag && !s'.word.flag ==> s'.pc[t] == Unlock(NotifyAll)
    requires forall u :: 0 <= u < threads && s.nodes[u].field == Contended ==>
      s'.nodes[u].field == Contended || s'.pc[t] == Unlock(NotifyOne(u))
    ensures Sleepers(threads, s')
  {
    forall u | 0 <= u < threads && s'.pc[u] == Lock(Wait(Asleep))
        ensures s'.nodes[u].field == Contended || WillWake(s', u) {
      if WillWake(s, u) {
        var w: Tid :| w < |s.pc| && s.pc[w] == Unlock(NotifyOne(u));
        assert s'.pc[w] == Unlock(NotifyOne(u));
      }
    }
    forall u | 0 <= u < threads && s'.pc[u] == Try(AsleepWord) ensures s'.word.flag || WillWakeAll(s') {
      if WillWakeAll(s) {
        var w: Tid :| w < |s.pc| && s.pc[w] == Unlock(NotifyAll);
        assert s'.pc[w] == Unlock(NotifyAll);
      }
    }
  }

  lemma SleepersNotified(threads: nat, s: State, s': State, t: Tid)
    requires Shape(threads, s) && Shape(threads, s') && t < threads && Sleepers(threads, s)
    requires HandStep(threads, s, s', t)
    requires s.pc[t] == Unlock(NotifyAll) || s.pc[t].up.NotifyOne?
    ensures Sleepers(threads, s')
  {
    forall u | 0 <= u < threads && s'.pc[u] == Lock(Wait(Asleep))
        ensures s'.nodes[u].field == Contended || WillWake(s', u) {
      if WillWake(s, u) {
        var w: Tid :| w < |s.pc| && s.pc[w] == Unlock(NotifyOne(u));
        assert w != t ==> s'.pc[w] == Unlock(NotifyOne(u));
      }
    }
    forall u | 0 <= u < threads && s'.pc[u] == Try(AsleepWord) ensures s'.word.flag || WillWakeAll(s') {
      if WillWakeAll(s) {
        var w: Tid :| w < |s.pc| && s.pc[w] == Unlock(NotifyAll);
        assert w != t ==> s'.pc[w] == Unlock(NotifyAll);
      }
    }
  }

  lemma SleepersOnStep(threads: nat, s: State, s': State, t: Tid)
    requires Shape(threads, s) && t < threads && Chain(threads, s) && Sleepers(threads, s)
    requires ThreadStep(threads, s, s', t)
    requires Shape(threads, s')
    ensures Sleepers(threads, s')
  {
    if CallStep(threads, s, s', t) {
      SleepersLocal(threads, s, s', t);
    } else if LockStep(threads, s, s', t) {
      SleepersLocal(threads, s, s', t);
    } else if WaitStep(threads, s, s', t) {
      SleepersLocal(threads, s, s', t);
    } else if TryStep(threads, s, s', t) {
      SleepersLocal(threads, s, s', t);
    } else if ReleaseStep(threads, s, s', t) {
      assert ThreadOk(threads, s, t);
      SleepersReleased(threads, s, s', t);
    } else {
      SleepersOnHand(threads, s, s', t);
    }
  }

  lemma SleepersOnHand(threads: nat, s: State, s': State, t: Tid)
    requires Shape(threads, s) && t < threads && Sleepers(threads, s) && HandStep(threads, s, s', t)
    requires Shape(threads, s')
    ensures Sleepers(threads, s')
  {
    match s.pc[t].up
    case NotifyAll => SleepersNotified(threads, s, s', t);
    case NotifyOne(_) => SleepersNotified(threads, s, s', t);
    case HandOver(n) => SleepersReleased(threads, s, s', t);
    case _ => SleepersLocal(threads, s, s', t);
  }

  // ---------- order of acquisition ----------

  /** Whether the head of the chain has returned from its locking call. */
  lemma HeadIs(threads: nat, s: State, t: Tid)
    requires Shape(threads, s) && t < threads && Chain(threads, s) && Member(s.pc[t]) && s.slot[t] == s.left
    ensures s.left < |s.joined| && s.joined[s.left] == t && HeadOwns(threads, s) == Owner(s.pc[t])
  {
    assert ThreadOk(threads, s, t);
  }

  /** Nobody acquires or releases. */
  lemma FifoSame(threads: nat, s: State, s': State, t: Tid)
    requires Shape(threads, s) && Shape(threads, s') && t < threads && Chain(threads, s) && Chain(threads, s')
    requires Fifo(threads, s)
    requires s'.left == s.left && s'.got == s.got && s.joined <= s'.joined
    requires s'.pc == s.pc[t := s'.pc[t]] && Owner(s'.pc[t]) == Owner(s.pc[t])
    ensures Fifo(threads, s')
  {
    if s.left < |s.joined| {
      assert s'.joined[s.left] == s.joined[s.left];
    } else if s.left < |s'.joined| {
      assert PlaceOk(threads, s', s.left);
      FifoEmpty(threads, s, s', t);
    }
  }

  lemma FifoEmpty(threads: nat, s: State, s': State, t: Tid)
    requires Shape(threads, s) && Shape(threads, s') && t < threads && Chain(threads, s) && Chain(threads, s')
    requires s'.left == s.left == |s.joined| && s.left < |s'.joined| && s.joined <= s'.joined
    requires s'.pc == s.pc[t := s'.pc[t]] && Owner(s'.pc[t]) == Owner(s.pc[t])
    ensures !HeadOwns(threads, s')
  {
    assert PlaceOk(threads, s', s.left);
    var h := s'.joined[s.left];
    assert ThreadOk(threads, s, h);
  }

  /** t returns from its locking call as the head of the chain. */
  lemma FifoAcquired(threads: nat, s: State, s': State, t: Tid)
    requires Shape(threads, s) && Shape(threads, s') && t < threads && Chain(threads, s) && Chain(threads, s')
    requires Fifo(threads, s)
    requires s'.left == s.left && s'.got == s.got + [t] && s'.pc == s.pc[t := Holding] && s.joined <= s'.joined
    requires !Owner(s.pc[t])
    ensures Fifo(threads, s')
  {
    assert ThreadOk(threads, s', t);
    HeadIs(threads, s', t);
    assert !HeadOwns(threads, s);
  }

  /** The head t leaves the chain. */
  lemma FifoLeft(threads: nat, s: State, s': State, t: Tid)
    requires Shape(threads, s) && Shape(threads, s') && t < threads && Chain(threads, s) && Chain(threads, s')
    requires Fifo(threads, s)
    requires Owner(s.pc[t]) && s.slot[t] == s.left && !Owner(s'.pc[t])
    requires s'.left == s.left + 1 && s'.got == s.got && s'.joined == s.joined && s'.pc == s.pc[t := s'.pc[t]]
    ensures Fifo(threads, s')
  {
    HeadIs(threads, s, t);
    if s'.left < |s'.joined| {
      assert PlaceOk(threads, s', s'.left);
      var h := s'.joined[s'.left];
      assert ThreadOk(threads, s, h);
    }
  }

  lemma FifoWoken(threads: nat, s: State, s': State)
    requires Shape(threads, s) && Shape(threads, s') && Chain(threads, s) && Chain(threads, s') && Fifo(threads, s)
    requires s' == s.(pc := s'.pc)
    requires forall u :: 0 <= u < threads ==> Owner(s'.pc[u]) == Owner(s.pc[u])
    ensures Fifo(threads, s')
  {
    assert HeadOwns(threads, s') == HeadOwns(threads, s);
  }

  lemma FifoOnStep(threads: nat, s: State, s': State, t: Tid)
    requires Shape(threads, s) && t < threads && Chain(threads, s) && Fifo(threads, s) && ThreadStep(threads, s, s', t)
    requires Shape(threads, s') && Chain(threads, s')
    ensures Fifo(threads, s')
  {
    if HandStep(threads, s, s', t) {
      FifoOnHand(threads, s, s', t);
    } else if s'.left != s.left {
      assert ThreadOk(threads, s, t);
      FifoLeft(threads, s, s', t);
    } else if s'.got != s.got {
      FifoAcquired(threads, s, s', t);
    } else {
      FifoSame(threads, s, s', t);
    }
  }

  lemma FifoOnHand(threads: nat, s: State, s': State, t: Tid)
    requires Shape(threads, s) && t < threads && Chain(threads, s) && Fifo(threads, s) && HandStep(threads, s, s', t)
    requires Shape(threads, s') && Chain(threads, s')
    ensures Fifo(threads, s')
  {
    if s.pc[t].up.HandOver? {
      assert ThreadOk(threads, s, t);
      FifoLeft(threads, s, s', t);
    } else if s.pc[t].up.NotifyAll? || s.pc[t].up.NotifyOne? {
      FifoWoken(threads, s, s');
    } else {
      FifoSame(threads, s, s', t);
    }
  }

  // ---------- all together ----------

  lemma InitInv(threads: nat, s: State)
    requires Init(threads, s)
    ensures Inv(threads, s)
  {
  }

  lemma StepKeepsInv(threads: nat, s: State, s': State, t: Tid)
    requires Inv(threads, s) && t < threads && ThreadStep(threads, s, s', t)
    ensures Inv(threads, s')
  {
    if CallStep(threads, s, s', t) {
      ChainOnCall(threads, s, s', t);
    } else if LockStep(threads, s, s', t) {
      ChainOnLock(threads, s, s', t);
    } else if WaitStep(threads, s, s', t) {
      ChainOnWait(threads, s, s', t);
    } else if ReleaseStep(threads, s, s', t) {
      ChainOnRelease(threads, s, s', t);
    } else if HandStep(threads, s, s', t) {
      ChainOnHand(threads, s, s', t);
    } else {
      ChainOnTry(threads, s, s', t);
    }
    SleepersOnStep(threads, s, s', t);
    FifoOnStep(threads, s, s', t);
  }

  lemma NextKeepsInv(threads: nat, s: State, s': State)
    requires Inv(threads, s) && Next(threads, s, s')
    ensures Inv(threads, s')
  {
    var t: Tid :| t < threads && ThreadStep(threads, s, s', t);
    StepKeepsInv(threads, s, s', t);
  }

  lemma {:induction false} RunKeepsInv(threads: nat, run: seq<State>, i: nat, s: State)
    requires Run(threads, run) && i < |run| && s == run[i]
    ensures Inv(threads, s)
  {
    if i == 0 {
      InitInv(threads, s);
    } else {
      var before := run[i - 1];
      RunKeepsInv(threads, run, i - 1, before);
      assert NextAt(threads, run, i - 1);
      NextKeepsInv(threads, before, s);
    }
  }

  lemma ReachableInv(threads: nat, s: State)
    requires Reachable(threads, s)
    ensures Inv(threads, s)
  {
    var run :| Run(threads, run) && run[|run| - 1] == s;
    RunKeepsInv(threads, run, |run| - 1, s);
  }
}
