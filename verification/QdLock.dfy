/**
 * qdlock and mrqdlock as the library instantiates them: the delegation protocol, without or
 * with readers, over mcs_futex_lock. Both run together, a thread being inside a call of the
 * lock whenever its program point in delegate is a locking call, and a reader's is_locked
 * loading the lock's word. The composition refines both parts, so everything proved of either
 * holds of it, and it never deadlocks.
 */
module QdLock {
  import opened Prelude
  import TantrumQueue
  import D = Delegation
  import DI = DelegationInvariant
  import DS = DelegationSteps
  import L = McsFutexLock
  import LS = McsFutexSteps
  import LT = McsFutexTheorems

  datatype State = State(d: D.State, l: L.State)

  ghost predicate ValidConfig(c: D.Config) {
    D.ValidConfig(c) && !c.hier
  }

  function Threads(c: D.Config): nat {
    |c.node|
  }

  ghost predicate Shape(c: D.Config, x: State)
    requires ValidConfig(c)
  {
    D.Shape(c, x.d) && L.Shape(Threads(c), x.l)
  }

  ghost predicate Init(c: D.Config, x: State)
    requires ValidConfig(c)
  {
    D.Init(c, x.d) && L.Init(Threads(c), x.l)
  }

  /** Program points of delegate at which the thread is about to make, or inside, a call of the lock. */
  predicate Locking(pc: D.PC) {
    pc.Calling? && (pc.at.TryFirst? || pc.at.TryAgain? || pc.at.LockSlow?)
  }

  /** The lock operation such a point calls. */
  function Entry(pc: D.PC): L.PC
    requires Locking(pc)
  {
    if pc.at.LockSlow? then L.Lock(L.Load)
    else if pc.at.TryAgain? && pc.at.retry % D.WAIT_PERIOD == 0 then L.Try(L.LoadWord)
    else L.Try(L.IsLocked)
  }

  /** Calling try_lock, try_lock_or_wait or lock. */
  ghost predicate BeginLock(c: D.Config, x: State, x': State, t: Tid)
    requires ValidConfig(c) && Shape(c, x) && t < Threads(c)
  {
    Locking(x.d.pc[t]) && x.l.pc[t].Out? && x' == x.(l := L.Goto(x.l, t, Entry(x.d.pc[t])))
  }

  /** Calling unlock: from here on the thread no longer counts as the holder. */
  ghost predicate BeginUnlock(c: D.Config, x: State, x': State, t: Tid)
    requires ValidConfig(c) && Shape(c, x) && t < Threads(c)
  {
    && x.d.pc[t].MUnlock? && x.l.pc[t].Holding?
    && D.GuardStep(c, x.d, x'.d, t)
    && x'.l == L.Goto(x.l, t, L.Unlock(L.ReadNext(0)))
  }

  ghost predicate InsideStep(threads: nat, l: L.State, l': L.State, t: Tid)
    requires L.Shape(threads, l) && t < threads
  {
    || L.LockStep(threads, l, l', t) || L.WaitStep(threads, l, l', t) || L.ReleaseStep(threads, l, l', t)
    || L.HandStep(threads, l, l', t) || L.TryStep(threads, l, l', t)
  }

  /** A step inside the lock; when it ends the call, delegate goes on with the result. */
  ghost predicate LockStep(c: D.Config, x: State, x': State, t: Tid)
    requires ValidConfig(c) && Shape(c, x) && t < Threads(c)
  {
    && InsideStep(Threads(c), x.l, x'.l, t)
    && t < |x'.l.pc|
    && (if x'.l.pc[t].Holding? then Locking(x.d.pc[t]) && x'.d == D.Acquire(c, x.d, t, x.d.pc[t].at.TryAgain?)
        else if !x'.l.pc[t].Out? then x'.d == x.d
        else if x.d.pc[t].Leaving? then D.CallStep(c, x.d, x'.d, t)
        else Locking(x.d.pc[t]) && !x.d.pc[t].at.LockSlow? && x'.d == Refused(c, x.d, t))
  }

  /** The attempt failed; delegate retries. */
  function Refused(c: D.Config, d: D.State, t: Tid): D.State
    requires t < |d.pc| && Locking(d.pc[t]) && !d.pc[t].at.LockSlow?
  {
    D.Goto(d, t, D.Calling(d.pc[t].op, D.NextRetry(c, if d.pc[t].at.TryAgain? then d.pc[t].at.retry + 1 else 1)))
  }

  /** In rlock, at one of its two calls of is_locked. */
  predicate Checking(pc: D.PC) {
    pc.Reader? && (pc.rp.Check? || pc.rp.Spin?)
  }

  /** is_locked is one load of the word; the reader then goes on with the answer. */
  function Checked(c: D.Config, pc: D.PC, word: L.Word): D.PC
    requires Checking(pc)
  {
    match pc.rp
    case Check(free) =>
      if free then D.Reader(if pc.raised then D.Lower else D.Reading, pc.raised, pc.patience)
      else if word == L.FREE then D.Reader(D.Check(true), pc.raised, pc.patience)
      else D.Reader(D.Depart, pc.raised, pc.patience)
    case Spin(free) =>
      if free then D.Reader(D.Arrive, pc.raised, pc.patience)
      else if word == L.FREE then D.Reader(D.Spin(true), pc.raised, pc.patience)
      else D.AfterSpin(c, pc.raised, pc.patience)
  }

  ghost predicate CheckStep(c: D.Config, x: State, x': State, t: Tid)
    requires ValidConfig(c) && Shape(c, x) && t < Threads(c)
  {
    Checking(x.d.pc[t]) && x' == x.(d := D.Goto(x.d, t, Checked(c, x.d.pc[t], x.l.word)))
  }

  /** A step of delegate, rlock or runlock outside the lock. */
  ghost predicate PlainStep(c: D.Config, x: State, x': State, t: Tid)
    requires ValidConfig(c) && Shape(c, x) && t < Threads(c)
  {
    && !Locking(x.d.pc[t]) && !x.d.pc[t].MUnlock? && !x.d.pc[t].Leaving? && !Checking(x.d.pc[t])
    && D.ThreadStep(c, x.d, x'.d, t)
    && x'.l == x.l
  }

  ghost predicate ThreadStep(c: D.Config, x: State, x': State, t: Tid)
    requires ValidConfig(c) && Shape(c, x) && t < Threads(c)
  {
    || BeginLock(c, x, x', t)
    || BeginUnlock(c, x, x', t)
    || LockStep(c, x, x', t)
    || CheckStep(c, x, x', t)
    || PlainStep(c, x, x', t)
  }

  ghost predicate Next(c: D.Config, x: State, x': State)
    requires ValidConfig(c)
  {
    Shape(c, x) && exists t: Tid :: t < Threads(c) && ThreadStep(c, x, x', t)
  }

  /** The i-th step of a sequence of states. */
  ghost predicate NextAt(c: D.Config, run: seq<State>, i: nat)
    requires ValidConfig(c) && i + 1 < |run|
  {
    Next(c, run[i], run[i + 1])
  }

  ghost predicate Run(c: D.Config, run: seq<State>)
    requires ValidConfig(c)
  {
    && |run| > 0
    && Init(c, run[0])
    && (forall i :: 0 <= i < |run| - 1 ==> NextAt(c, run, i))
  }

  lemma StepOf(c: D.Config, run: seq<State>, i: nat, x: State, x': State)
    requires ValidConfig(c) && Run(c, run) && i + 1 < |run| && x == run[i] && x' == run[i + 1]
    ensures Next(c, x, x')
  {
    assert NextAt(c, run, i);
  }

  ghost predicate Reachable(c: D.Config, x: State)
    requires ValidConfig(c)
  {
    exists run :: Run(c, run) && run[|run| - 1] == x
  }

  // ---------- the invariant of the composition ----------

  /** The two program points of a thread fit together. */
  ghost predicate Fits(d: D.PC, l: L.PC) {
    if Locking(d) then l.Out? || (if d.at.LockSlow? then l.Lock? else l.Try?)
    else if D.HoldsMutex(d) then l.Holding?
    else if d.Leaving? then l.Unlock?
    else l.Out?
  }

  ghost predicate Glue(c: D.Config, x: State)
    requires ValidConfig(c) && Shape(c, x)
  {
    forall t :: 0 <= t < Threads(c) ==> Fits(x.d.pc[t], x.l.pc[t])
  }

  ghost predicate Inv(c: D.Config, x: State)
    requires ValidConfig(c)
  {
    && DI.Inv(c, x.d)
    && L.Inv(Threads(c), x.l)
    && Glue(c, x)
  }

  /** If nobody holds the lock inside the lock model, the mutex of the protocol model is free. */
  lemma MutexIsFree(c: D.Config, x: State, t: Tid)
    requires ValidConfig(c) && Shape(c, x) && DI.Locks(c, x.d) && Glue(c, x) && t < Threads(c)
    requires forall u :: 0 <= u < Threads(c) ==> !x.l.pc[u].Holding?
    ensures x.d.mutex[c.node[t]] == None
  {
  }

  /** While the word is free nobody holds the lock, and the protocol's mutex is free. */
  lemma FreeWordFreeMutex(c: D.Config, x: State)
    requires ValidConfig(c) && Shape(c, x) && DI.Locks(c, x.d) && L.Inv(Threads(c), x.l) && Glue(c, x)
    requires x.l.word == L.FREE
    ensures x.d.mutex[0] == None
  {
    forall u | 0 <= u < Threads(c) ensures !x.l.pc[u].Holding? {
      assert L.ThreadOk(Threads(c), x.l, u);
    }
    if x.d.mutex[0].Some? {
      MutexIsFree(c, x, x.d.mutex[0].value);
    }
  }

  /** The check of a reader is one the protocol allows. */
  lemma CheckPart(c: D.Config, x: State, x': State, t: Tid)
    requires ValidConfig(c) && Shape(c, x) && DI.Locks(c, x.d) && L.Inv(Threads(c), x.l) && Glue(c, x)
    requires t < Threads(c) && CheckStep(c, x, x', t)
    ensures D.ReaderStep(c, x.d, x'.d, t)
  {
    if x.l.word == L.FREE {
      FreeWordFreeMutex(c, x);
    }
  }

  /** A locking call of t that succeeds does so while nobody else holds the lock. */
  lemma AcquireIsExclusive(c: D.Config, x: State, l': L.State, t: Tid, u: Tid)
    requires ValidConfig(c) && Shape(c, x) && L.Inv(Threads(c), l') && t < Threads(c) && u < Threads(c)
    requires InsideStep(Threads(c), x.l, l', t) && l'.pc[t].Holding? && !x.l.pc[t].Holding?
    ensures !x.l.pc[u].Holding?
  {
    assert L.ThreadOk(Threads(c), l', t) && L.ThreadOk(Threads(c), l', u);
    if u != t {
      HoldersStay(Threads(c), x.l, l', t, u);
    }
  }

  lemma HoldersStay(threads: nat, l: L.State, l': L.State, t: Tid, u: Tid)
    requires L.Shape(threads, l) && t < threads && u < threads && u != t && InsideStep(threads, l, l', t)
    ensures L.Shape(threads, l')
    ensures l'.pc[u] == l.pc[u]
      || (l.pc[u] == L.Try(L.AsleepWord) && l'.pc[u] == L.Try(L.Woken))
      || (l.pc[u] == L.Lock(L.Wait(L.Asleep)) && l'.pc[u] == L.Lock(L.Wait(L.Test)))
  {
    if L.LockStep(threads, l, l', t) {
    } else if L.WaitStep(threads, l, l', t) {
    } else if L.ReleaseStep(threads, l, l', t) {
    } else if L.TryStep(threads, l, l', t) {
    } else {
    }
  }

  /** Inside a call the thread stays in the same operation until it returns. */
  lemma StaysInside(threads: nat, l: L.State, l': L.State, t: Tid)
    requires L.Shape(threads, l) && t < threads && InsideStep(threads, l, l', t)
    ensures L.Shape(threads, l')
    ensures LT.InCall(l.pc[t])
    ensures l.pc[t].Lock? ==> l'.pc[t].Lock? || l'.pc[t].Holding?
    ensures l.pc[t].Try? ==> l'.pc[t].Try? || l'.pc[t].Holding? || l'.pc[t].Out?
    ensures l.pc[t].Unlock? ==> l'.pc[t].Unlock? || l'.pc[t].Out?
  {
    if L.LockStep(threads, l, l', t) {
    } else if L.WaitStep(threads, l, l', t) {
    } else if L.ReleaseStep(threads, l, l', t) {
    } else if L.TryStep(threads, l, l', t) {
    } else {
    }
  }

  /** Every step of the composition is a step of the lock or leaves it alone. */
  lemma LockPart(c: D.Config, x: State, x': State, t: Tid)
    requires ValidConfig(c) && Shape(c, x) && t < Threads(c) && ThreadStep(c, x, x', t)
    ensures x'.l == x.l || L.ThreadStep(Threads(c), x.l, x'.l, t)
  {
  }

  /** Every step of the composition is a step of the protocol or leaves it alone. */
  lemma ProtocolPart(c: D.Config, x: State, x': State, t: Tid)
    requires ValidConfig(c) && Inv(c, x) && t < Threads(c) && ThreadStep(c, x, x', t)
    requires L.Inv(Threads(c), x'.l)
    ensures x'.d == x.d || D.ThreadStep(c, x.d, x'.d, t)
  {
    if LockStep(c, x, x', t) {
      if x'.l.pc[t].Holding? {
        forall u | 0 <= u < Threads(c) ensures !x.l.pc[u].Holding? {
          StaysInside(Threads(c), x.l, x'.l, t);
          AcquireIsExclusive(c, x, x'.l, t, u);
        }
        MutexIsFree(c, x, t);
        assert D.CallStep(c, x.d, x'.d, t);
      } else if x'.l.pc[t].Out? && !x.d.pc[t].Leaving? {
        assert D.CallStep(c, x.d, x'.d, t);
      }
    } else if CheckStep(c, x, x', t) {
      CheckPart(c, x, x', t);
    }
  }

  lemma GlueKept(c: D.Config, x: State, x': State, t: Tid)
    requires ValidConfig(c) && Shape(c, x) && Shape(c, x') && t < Threads(c) && Glue(c, x) && ThreadStep(c, x, x', t)
    ensures Glue(c, x')
  {
    if LockStep(c, x, x', t) {
      GlueOnLock(c, x, x', t);
    } else if PlainStep(c, x, x', t) {
      PlainFits(c, x, x', t);
    }
  }

  lemma GlueOnLock(c: D.Config, x: State, x': State, t: Tid)
    requires ValidConfig(c) && Shape(c, x) && Shape(c, x') && t < Threads(c) && Glue(c, x) && LockStep(c, x, x', t)
    ensures Glue(c, x')
  {
    StaysInside(Threads(c), x.l, x'.l, t);
    forall u | 0 <= u < Threads(c) ensures Fits(x'.d.pc[u], x'.l.pc[u]) {
      if u != t {
        HoldersStay(Threads(c), x.l, x'.l, t, u);
      }
    }
  }

  lemma PlainFits(c: D.Config, x: State, x': State, t: Tid)
    requires ValidConfig(c) && Shape(c, x) && Shape(c, x') && t < Threads(c) && Glue(c, x) && PlainStep(c, x, x', t)
    ensures Glue(c, x')
  {
    PlainKeepsClass(c, x.d, x'.d, t);
  }

  /** Outside the lock, a step neither acquires nor releases the mutex. */
  lemma PlainKeepsClass(c: D.Config, d: D.State, d': D.State, t: Tid)
    requires ValidConfig(c) && D.Shape(c, d) && t < |d.pc| && D.ThreadStep(c, d, d', t)
    requires !Locking(d.pc[t]) && !d.pc[t].MUnlock? && !d.pc[t].Leaving?
    ensures SameClass(d, d', t)
  {
    if D.EnqueueStep(c, d, d', t) {
      EnqueueKeepsClass(c, d, d', t);
    } else if D.FlushStep(c, d, d', t) {
      FlushKeepsClass(c, d, d', t);
    } else if D.CallStep(c, d, d', t) {
    } else if D.GuardStep(c, d, d', t) {
    } else if D.OwnStep(c, d, d', t) {
    } else if D.ReaderStep(c, d, d', t) {
    } else {
      var req: nat, direct: bool :| D.StartCall(c, d, d', t, req, direct);
    }
  }

  ghost predicate SameClass(d: D.State, d': D.State, t: Tid)
    requires t < |d.pc|
  {
    && |d'.pc| == |d.pc| && d'.pc == d.pc[t := d'.pc[t]]
    && D.HoldsMutex(d'.pc[t]) == D.HoldsMutex(d.pc[t]) && !d'.pc[t].Leaving?
  }

  lemma EnqueueKeepsClass(c: D.Config, d: D.State, d': D.State, t: Tid)
    requires ValidConfig(c) && D.Shape(c, d) && t < |d.pc| && D.EnqueueStep(c, d, d', t)
    ensures SameClass(d, d', t)
  {
  }

  lemma FlushKeepsClass(c: D.Config, d: D.State, d': D.State, t: Tid)
    requires ValidConfig(c) && D.Shape(c, d) && t < |d.pc| && D.FlushStep(c, d, d', t)
    ensures SameClass(d, d', t)
  {
  }

  lemma StepKeepsInv(c: D.Config, x: State, x': State, t: Tid)
    requires ValidConfig(c) && Inv(c, x) && t < Threads(c) && ThreadStep(c, x, x', t)
    ensures Inv(c, x')
    ensures x'.l == x.l || L.ThreadStep(Threads(c), x.l, x'.l, t)
    ensures x'.d == x.d || D.ThreadStep(c, x.d, x'.d, t)
  {
    LockPart(c, x, x', t);
    if x'.l != x.l {
      LS.StepKeepsInv(Threads(c), x.l, x'.l, t);
    }
    ProtocolPart(c, x, x', t);
    if x'.d != x.d {
      DS.StepKeepsInv(c, x.d, x'.d, t);
    }
    GlueKept(c, x, x', t);
  }

  lemma InitInv(c: D.Config, x: State)
    requires ValidConfig(c) && Init(c, x)
    ensures Inv(c, x)
  {
    DS.InitInv(c, x.d);
    LS.InitInv(Threads(c), x.l);
  }

  lemma NextKeepsInv(c: D.Config, x: State, x': State)
    requires ValidConfig(c) && Inv(c, x) && Next(c, x, x')
    ensures Inv(c, x')
  {
    var t: Tid :| t < Threads(c) && ThreadStep(c, x, x', t);
    StepKeepsInv(c, x, x', t);
  }

  lemma {:induction false} RunKeepsInv(c: D.Config, run: seq<State>, i: nat, x: State)
    requires ValidConfig(c) && Run(c, run) && i < |run| && x == run[i]
    ensures Inv(c, x)
  {
    if i == 0 {
      InitInv(c, x);
    } else {
      var w := run[i - 1];
      RunKeepsInv(c, run, i - 1, w);
      StepOf(c, run, i - 1, w, x);
      NextKeepsInv(c, w, x);
    }
  }

  lemma ReachableInv(c: D.Config, x: State)
    requires ValidConfig(c) && Reachable(c, x)
    ensures Inv(c, x)
  {
    var run :| Run(c, run) && run[|run| - 1] == x;
    RunKeepsInv(c, run, |run| - 1, x);
  }

  lemma StepReachable(c: D.Config, x: State, x': State, t: Tid)
    requires ValidConfig(c) && Reachable(c, x) && Shape(c, x) && t < Threads(c) && ThreadStep(c, x, x', t)
    ensures Reachable(c, x')
  {
    assert Next(c, x, x');
    NextReachable(c, x, x');
  }

  lemma NextReachable(c: D.Config, x: State, x': State)
    requires ValidConfig(c) && Reachable(c, x) && Next(c, x, x')
    ensures Reachable(c, x')
  {
    var run :| Run(c, run) && run[|run| - 1] == x;
    RunExtended(c, run, x, x');
    var longer := run + [x'];
    assert longer[|longer| - 1] == x';
  }

  lemma RunExtended(c: D.Config, run: seq<State>, x: State, x': State)
    requires ValidConfig(c) && Run(c, run) && x == run[|run| - 1] && Next(c, x, x')
    ensures Run(c, run + [x'])
  {
    var longer := run + [x'];
    forall i | 0 <= i < |longer| - 1 ensures NextAt(c, longer, i) {
      if i < |run| - 1 {
        assert NextAt(c, run, i) && longer[i] == run[i] && longer[i + 1] == run[i + 1];
      } else {
        assert longer[i] == x && longer[i + 1] == x';
      }
    }
  }

  // ---------- the parts of a run are runs of the parts ----------

  lemma ProtocolStepReachable(c: D.Config, d: D.State, d': D.State, t: Tid)
    requires D.ValidConfig(c) && D.Reachable(c, d) && D.Shape(c, d) && D.Shape(c, d') && t < |d.pc|
    requires D.ThreadStep(c, d, d', t)
    ensures D.Reachable(c, d')
  {
    assert D.Next(c, d, d');
    D.NextReaches(c, d, d');
  }

  lemma LockStepReachable(threads: nat, l: L.State, l': L.State, t: Tid)
    requires L.Reachable(threads, l) && L.Shape(threads, l) && L.Shape(threads, l') && t < threads
    requires L.ThreadStep(threads, l, l', t)
    ensures L.Reachable(threads, l')
  {
    var run :| L.Run(threads, run) && run[|run| - 1] == l;
    var longer := run + [l'];
    forall i | 0 <= i < |longer| - 1 ensures L.NextAt(threads, longer, i) {
      if i < |run| - 1 {
        assert L.NextAt(threads, run, i);
      } else {
        assert L.Next(threads, l, l');
      }
    }
    assert L.Run(threads, longer) && longer[|longer| - 1] == l';
  }

  /** Refinement: the protocol part of qdlock is a run of the protocol, the lock part a run of the lock. */
  lemma {:induction false} RefinesParts(c: D.Config, run: seq<State>, i: nat, x: State)
    requires ValidConfig(c) && Run(c, run) && i < |run| && x == run[i]
    ensures D.Reachable(c, x.d)
    ensures L.Reachable(Threads(c), x.l)
  {
    if i == 0 {
      StartsReachable(c, x);
    } else {
      var w := run[i - 1];
      RefinesParts(c, run, i - 1, w);
      RunKeepsInv(c, run, i - 1, w);
      StepOf(c, run, i - 1, w, x);
      NextRefines(c, w, x);
    }
  }

  lemma StartsReachable(c: D.Config, x: State)
    requires ValidConfig(c) && Init(c, x)
    ensures D.Reachable(c, x.d) && L.Reachable(Threads(c), x.l)
  {
    assert D.Run(c, [x.d]) && [x.d][|[x.d]| - 1] == x.d;
    assert L.Run(Threads(c), [x.l]) && [x.l][|[x.l]| - 1] == x.l;
  }

  lemma NextRefines(c: D.Config, x: State, x': State)
    requires ValidConfig(c) && Inv(c, x) && Next(c, x, x')
    requires D.Reachable(c, x.d) && L.Reachable(Threads(c), x.l)
    ensures D.Reachable(c, x'.d) && L.Reachable(Threads(c), x'.l)
  {
    var t: Tid :| t < Threads(c) && ThreadStep(c, x, x', t);
    StepKeepsInv(c, x, x', t);
    if x'.d != x.d {
      ProtocolStepReachable(c, x.d, x'.d, t);
    }
    if x'.l != x.l {
      LockStepReachable(Threads(c), x.l, x'.l, t);
    }
  }
}
