/**
 * How delegate uses its lock: which of the locking operations it calls in which round, and what a
 * call that nobody disturbs does when the lock is free.
 */
module QdLockAttempts {
  import opened Prelude
  import opened QdLock
  import opened QdLockPaths
  import D = Delegation
  import L = McsFutexLock

  /** Not inside the lock yet, or inside try_lock. */
  predicate InTryLock(l: L.PC) {
    l.Out? || l == L.Try(L.IsLocked) || l == L.Try(L.CasTry)
  }

  /** Not inside the lock yet, or inside try_lock_or_wait. */
  predicate InTryLockOrWait(l: L.PC) {
    l.Out? || (l.Try? && !l.tp.IsLocked? && !l.tp.CasTry?)
  }

  /** The first attempt and the rounds not divisible by 128 call try_lock, the others try_lock_or_wait. */
  predicate CallsRight(d: D.PC, l: L.PC) {
    Locking(d) ==>
      match d.at
      case TryFirst => InTryLock(l)
      case TryAgain(retry) => if retry % 128 == 0 then InTryLockOrWait(l) else InTryLock(l)
      case _ => l.Out? || l.Lock?
  }

  ghost predicate AllCallRight(c: D.Config, x: State)
    requires ValidConfig(c) && Shape(c, x)
  {
    forall t :: 0 <= t < Threads(c) ==> CallsRight(x.d.pc[t], x.l.pc[t])
  }

  /** A step inside the lock stays in the same operation. */
  lemma InsideSame(threads: nat, l: L.State, l': L.State, t: Tid)
    requires L.Shape(threads, l) && t < threads && InsideStep(threads, l, l', t)
    ensures L.Shape(threads, l')
    ensures l.pc[t].Try? && InTryLock(l.pc[t]) ==> InTryLock(l'.pc[t]) || l'.pc[t].Holding?
    ensures l.pc[t].Try? && InTryLockOrWait(l.pc[t]) ==> InTryLockOrWait(l'.pc[t]) || l'.pc[t].Holding?
    ensures l.pc[t].Lock? ==> l'.pc[t].Lock? || l'.pc[t].Holding?
  {
    if L.LockStep(threads, l, l', t) {
    } else if L.WaitStep(threads, l, l', t) {
    } else if L.ReleaseStep(threads, l, l', t) {
    } else if L.TryStep(threads, l, l', t) {
    } else {
    }
  }

  lemma KeptInLock(c: D.Config, x: State, x': State, t: Tid)
    requires ValidConfig(c) && Shape(c, x) && Shape(c, x') && t < Threads(c) && AllCallRight(c, x)
    requires LockStep(c, x, x', t)
    ensures AllCallRight(c, x')
  {
    InsideSame(Threads(c), x.l, x'.l, t);
    StaysInside(Threads(c), x.l, x'.l, t);
    forall u | 0 <= u < Threads(c) ensures CallsRight(x'.d.pc[u], x'.l.pc[u]) {
      if u != t {
        HoldersStay(Threads(c), x.l, x'.l, t, u);
      }
    }
  }

  lemma KeptOutside(c: D.Config, x: State, x': State, t: Tid)
    requires ValidConfig(c) && Shape(c, x) && Shape(c, x') && t < Threads(c) && AllCallRight(c, x)
    requires Fits(x.d.pc[t], x.l.pc[t])
    requires ThreadStep(c, x, x', t) && !LockStep(c, x, x', t)
    ensures AllCallRight(c, x')
  {
    if BeginLock(c, x, x', t) {
    } else if BeginUnlock(c, x, x', t) {
    } else {
      OutsideLock(c, x, x', t);
    }
  }

  lemma OutsideLock(c: D.Config, x: State, x': State, t: Tid)
    requires ValidConfig(c) && Shape(c, x) && Shape(c, x') && t < Threads(c) && AllCallRight(c, x)
    requires Fits(x.d.pc[t], x.l.pc[t])
    requires CheckStep(c, x, x', t) || PlainStep(c, x, x', t)
    ensures AllCallRight(c, x')
  {
    if CheckStep(c, x, x', t) {
    } else {
      PlainOutside(c, x, x', t);
    }
  }

  lemma PlainOutside(c: D.Config, x: State, x': State, t: Tid)
    requires ValidConfig(c) && Shape(c, x) && Shape(c, x') && t < Threads(c) && AllCallRight(c, x)
    requires PlainStep(c, x, x', t)
    requires Fits(x.d.pc[t], x.l.pc[t])
    ensures AllCallRight(c, x')
  {
    PlainKeepsClass(c, x.d, x'.d, t);
  }

  lemma NextKeepsRight(c: D.Config, x: State, x': State)
    requires ValidConfig(c) && Inv(c, x) && Next(c, x, x') && AllCallRight(c, x)
    ensures Shape(c, x') && AllCallRight(c, x')
  {
    var t: Tid :| t < Threads(c) && ThreadStep(c, x, x', t);
    StepKeepsInv(c, x, x', t);
    if LockStep(c, x, x', t) {
      KeptInLock(c, x, x', t);
    } else {
      assert Fits(x.d.pc[t], x.l.pc[t]);
      KeptOutside(c, x, x', t);
    }
  }

  lemma {:induction false} RunKeepsRight(c: D.Config, run: seq<State>, i: nat, x: State)
    requires ValidConfig(c) && Run(c, run) && i < |run| && x == run[i]
    ensures Shape(c, x) && AllCallRight(c, x)
  {
    if i > 0 {
      var w := run[i - 1];
      RunKeepsRight(c, run, i - 1, w);
      RunKeepsInv(c, run, i - 1, w);
      StepOf(c, run, i - 1, w, x);
      NextKeepsRight(c, w, x);
    }
  }

  /** delegate sleeps on the lock word only in every 128th round; elsewhere its attempts do not block. */
  lemma SleepsRarely(c: D.Config, x: State, t: Tid)
    requires ValidConfig(c) && Reachable(c, x) && Shape(c, x) && t < Threads(c) && x.l.pc[t].Try? && Locking(x.d.pc[t])
    ensures x.l.pc[t].tp.IsLocked? || x.l.pc[t].tp.CasTry? <==>
      x.d.pc[t].at.TryFirst? || (x.d.pc[t].at.TryAgain? && x.d.pc[t].at.retry % 128 != 0)
  {
    ReachableRight(c, x);
    assert CallsRight(x.d.pc[t], x.l.pc[t]);
  }

  lemma ReachableRight(c: D.Config, x: State)
    requires ValidConfig(c) && Reachable(c, x)
    ensures Shape(c, x) && AllCallRight(c, x)
  {
    var run :| Run(c, run) && run[|run| - 1] == x;
    RunKeepsRight(c, run, |run| - 1, x);
  }

  /**
   * A first attempt on a free lock that nobody disturbs takes it, in three steps of its thread, as executor; an
   * attempt in a round that calls try_lock takes it as helper.
   */
  lemma UndisturbedAttempt(c: D.Config, x0: State, x1: State, x2: State, x3: State, t: Tid)
    requires ValidConfig(c) && Reachable(c, x0) && Shape(c, x0) && t < Threads(c) && x0.l.word == L.FREE
    requires x0.l.pc[t].Out?
    requires x0.d.pc[t].Calling?
    requires x0.d.pc[t].at.TryFirst? || (x0.d.pc[t].at.TryAgain? && x0.d.pc[t].at.retry % 128 != 0)
    requires ThreadStep(c, x0, x1, t) && Shape(c, x1) && ThreadStep(c, x1, x2, t) && Shape(c, x2)
    requires ThreadStep(c, x2, x3, t)
    ensures t < |x3.l.pc| && x3.l.pc[t].Holding?
    ensures t < |x3.d.pc| && x3.d.pc[t] == D.HLock(x0.d.pc[t].op, x0.d.pc[t].at.TryAgain?)
  {
    FirstOfAttempt(c, x0, x1, t);
    MiddleOfAttempt(c, x1, x2, t);
    LastOfAttempt(c, x2, x3, t);
  }

  /** The check of rlock: a reader that has arrived and loads a free word is in, otherwise it departs again. */
  lemma CheckAnswers(c: D.Config, x: State, x': State, r: Tid)
    requires ValidConfig(c) && Reachable(c, x) && Shape(c, x) && r < Threads(c) && ThreadStep(c, x, x', r)
    requires r < |x'.d.pc|
    requires x.d.pc[r].Reader? && x.d.pc[r].rp == D.Check(false)
    ensures x'.d.pc[r].Reader? && x'.d.pc[r].raised == x.d.pc[r].raised && x'.d.rc == x.d.rc && x'.l == x.l
    ensures x'.d.pc[r].rp == if x.l.word == L.FREE then D.Check(true) else D.Depart
  {
    ReaderIsOut(c, x, r);
    ReaderChecks(c, x, x', r);
  }

  lemma ReaderIsOut(c: D.Config, x: State, r: Tid)
    requires ValidConfig(c) && Reachable(c, x) && Shape(c, x) && r < Threads(c) && x.d.pc[r].Reader?
    ensures x.l.pc[r].Out?
  {
    ReachableInv(c, x);
    assert Fits(x.d.pc[r], x.l.pc[r]);
  }

  lemma ReaderChecks(c: D.Config, x: State, x': State, r: Tid)
    requires ValidConfig(c) && Shape(c, x) && r < Threads(c) && ThreadStep(c, x, x', r)
    requires x.d.pc[r].Reader? && (x.d.pc[r].rp.Check? || x.d.pc[r].rp.Spin?) && x.l.pc[r].Out?
    ensures CheckStep(c, x, x', r)
  {
    OutsideTheLock(c, x, x', r);
  }

  /** An rlock that finds the lock free is through in three steps, counted once in its group, the barrier as before. */
  lemma UndisturbedReader(c: D.Config, x0: State, x1: State, x2: State, x3: State, r: Tid)
    requires ValidConfig(c) && Reachable(c, x0) && Shape(c, x0) && r < Threads(c) && x0.l.word == L.FREE
    requires x0.d.pc[r] == D.Reader(D.Arrive, false, 0)
    requires ThreadStep(c, x0, x1, r) && Shape(c, x1) && ThreadStep(c, x1, x2, r) && Shape(c, x2)
    requires ThreadStep(c, x2, x3, r)
    ensures r < |x3.d.pc| && D.InReadSection(x3.d.pc[r])
    ensures x3.d.rc == x0.d.rc[D.Group(c, r) := x0.d.rc[D.Group(c, r)] + 1] && x3.d.barrier == x0.d.barrier
    ensures x3.l == x0.l
  {
    ReaderIsOut(c, x0, r);
    Arrives(c, x0, x1, r);
    Checks(c, x1, x2, r);
    Enters(c, x2, x3, r);
  }

  /** A thread in rlock or runlock is in no operation of the lock. */
  lemma OutsideTheLock(c: D.Config, x: State, x': State, r: Tid)
    requires ValidConfig(c) && Shape(c, x) && r < Threads(c) && ThreadStep(c, x, x', r)
    requires x.l.pc[r].Out? && x.d.pc[r].Reader?
    ensures CheckStep(c, x, x', r) || PlainStep(c, x, x', r)
  {
    if LockStep(c, x, x', r) {
      StaysInside(Threads(c), x.l, x'.l, r);
      assert false;
    }
  }

  lemma Checks(c: D.Config, x: State, x': State, r: Tid)
    requires ValidConfig(c) && Shape(c, x) && r < Threads(c) && ThreadStep(c, x, x', r) && x.l.pc[r].Out?
    requires x.d.pc[r] == D.Reader(D.Check(false), false, 0) && x.l.word == L.FREE
    ensures x' == x.(d := D.Goto(x.d, r, D.Reader(D.Check(true), false, 0)))
  {
    ReaderChecks(c, x, x', r);
  }

  lemma Arrives(c: D.Config, x: State, x': State, r: Tid)
    requires ValidConfig(c) && Shape(c, x) && r < Threads(c) && ThreadStep(c, x, x', r) && x.l.pc[r].Out?
    requires x.d.pc[r] == D.Reader(D.Arrive, false, 0)
    ensures r < |x'.d.pc| && x'.d.pc[r] == D.Reader(D.Check(false), false, 0)
    ensures x'.d.rc == x.d.rc[D.Group(c, r) := x.d.rc[D.Group(c, r)] + 1] && x'.d.barrier == x.d.barrier
    ensures x'.l == x.l
  {
    OutsideTheLock(c, x, x', r);
    assert PlainStep(c, x, x', r);
    assert D.ReaderStep(c, x.d, x'.d, r);
  }

  lemma Enters(c: D.Config, x: State, x': State, r: Tid)
    requires ValidConfig(c) && Shape(c, x) && r < Threads(c) && ThreadStep(c, x, x', r) && x.l.pc[r].Out?
    requires x.d.pc[r].Reader? && x.d.pc[r].rp == D.Check(true) && !x.d.pc[r].raised
    ensures r < |x'.d.pc| && D.InReadSection(x'.d.pc[r])
    ensures x'.d.rc == x.d.rc && x'.d.barrier == x.d.barrier && x'.l == x.l
  {
    ReaderChecks(c, x, x', r);
  }

  lemma FirstOfAttempt(c: D.Config, x: State, x': State, t: Tid)
    requires ValidConfig(c) && Shape(c, x) && t < Threads(c) && x.l.pc[t].Out? && ThreadStep(c, x, x', t)
    requires Locking(x.d.pc[t]) && (x.d.pc[t].at.TryFirst? || (x.d.pc[t].at.TryAgain? && x.d.pc[t].at.retry % 128 != 0))
    ensures x' == x.(l := L.Goto(x.l, t, L.Try(L.IsLocked)))
  {
    if LockStep(c, x, x', t) {
      StaysInside(Threads(c), x.l, x'.l, t);
      assert false;
    }
  }

  lemma MiddleOfAttempt(c: D.Config, x: State, x': State, t: Tid)
    requires ValidConfig(c) && Shape(c, x) && t < Threads(c) && x.l.pc[t] == L.Try(L.IsLocked) && x.l.word == L.FREE
    requires Locking(x.d.pc[t]) && ThreadStep(c, x, x', t)
    ensures x' == x.(l := L.Goto(x.l, t, L.Try(L.CasTry)))
  {
    assert LockStep(c, x, x', t);
    assert L.TryStep(Threads(c), x.l, x'.l, t);
  }

  lemma LastOfAttempt(c: D.Config, x: State, x': State, t: Tid)
    requires ValidConfig(c) && Shape(c, x) && t < Threads(c) && x.l.pc[t] == L.Try(L.CasTry) && x.l.word == L.FREE
    requires Locking(x.d.pc[t]) && ThreadStep(c, x, x', t)
    ensures t < |x'.l.pc| && x'.l.pc[t].Holding?
    ensures t < |x'.d.pc| && x'.d.pc[t] == D.HLock(x.d.pc[t].op, x.d.pc[t].at.TryAgain?)
  {
    assert LockStep(c, x, x', t);
    assert L.TryStep(Threads(c), x.l, x'.l, t);
  }
}
