/** Continuations of a run of the composed lock, and how to build them step by step. */
module QdLockPaths {
  import opened Prelude
  import opened QdLock
  import D = Delegation
  import DI = DelegationInvariant
  import DT = DelegationTheorems
  import L = McsFutexLock

  /** A call that was unfinished in x has returned in y, and no new call has begun. */
  ghost predicate Finished(x: State, y: State) {
    && |y.d.ops| == |x.d.ops|
    && exists o: OpId :: o < |x.d.ops| && o < |y.d.ops| && !x.d.ops[o].returned && y.d.ops[o].returned
  }

  /** Asleep in the kernel. */
  predicate Sleeping(pc: L.PC) {
    pc == L.Try(L.AsleepWord) || pc == L.Lock(L.Wait(L.Asleep))
  }

  /** A step that changes something, made by a thread that is awake: no spin and no spurious wake-up. */
  ghost predicate Moves(c: D.Config, x: State, x': State)
    requires ValidConfig(c)
  {
    Shape(c, x) && x' != x && exists t: Tid :: t < Threads(c) && !Sleeping(x.l.pc[t]) && ThreadStep(c, x, x', t)
  }

  ghost predicate MovesAt(c: D.Config, path: seq<State>, i: nat)
    requires ValidConfig(c) && i + 1 < |path|
  {
    Moves(c, path[i], path[i + 1])
  }

  ghost predicate Path(c: D.Config, path: seq<State>)
    requires ValidConfig(c)
  {
    |path| > 0 && forall i :: 0 <= i < |path| - 1 ==> MovesAt(c, path, i)
  }

  ghost predicate CanFinish(c: D.Config, x: State)
    requires ValidConfig(c)
  {
    exists path :: Path(c, path) && path[0] == x && Finished(x, path[|path| - 1])
  }

  // ---------- continuations step by step ----------

  lemma LockFacts(c: D.Config, x: State)
    requires ValidConfig(c) && Reachable(c, x)
    ensures Shape(c, x) && L.Inv(Threads(c), x.l) && Glue(c, x)
  {
    ReachableInv(c, x);
  }

  lemma CallFacts(c: D.Config, x: State, t: Tid)
    requires ValidConfig(c) && Reachable(c, x) && Shape(c, x) && t < Threads(c) && D.HasCall(x.d.pc[t])
    ensures x.d.pc[t].op < |x.d.ops| && !x.d.ops[x.d.pc[t].op].returned
    ensures 1 <= x.d.ops[x.d.pc[t].op].req <= c.maxReq
  {
    ReachableInv(c, x);
    assert DI.CallAt(t, x.d.pc[t], x.d.ops[x.d.pc[t].op]);
  }

  /** The last step of the continuation. */
  lemma Now(c: D.Config, x: State, x': State, t: Tid, o: OpId)
    requires ValidConfig(c) && Shape(c, x) && t < Threads(c) && !Sleeping(x.l.pc[t]) && ThreadStep(c, x, x', t)
    requires |x'.d.ops| == |x.d.ops| && o < |x.d.ops| && !x.d.ops[o].returned && x'.d.ops[o].returned
    ensures CanFinish(c, x)
  {
    var path := [x, x'];
    assert MovesAt(c, path, 0);
    assert Path(c, path) && Finished(x, path[|path| - 1]);
  }

  /** No step forgets that a call has returned. */
  lemma StillReturned(c: D.Config, x: State, x': State, t: Tid, o: OpId)
    requires ValidConfig(c) && Reachable(c, x) && Shape(c, x) && t < Threads(c) && ThreadStep(c, x, x', t)
    requires o < |x.d.ops| && x.d.ops[o].returned
    ensures o < |x'.d.ops| && x'.d.ops[o].returned
  {
    ReachableInv(c, x);
    StepKeepsInv(c, x, x', t);
    if x'.d != x.d {
      DT.StepGrows(c, x.d, x'.d, t);
    }
  }

  lemma Prepend(c: D.Config, x: State, path: seq<State>)
    requires ValidConfig(c) && Path(c, path) && Moves(c, x, path[0])
    ensures Path(c, [x] + path)
  {
    var longer := [x] + path;
    forall i | 0 <= i < |longer| - 1 ensures MovesAt(c, longer, i) {
      if i > 0 {
        assert MovesAt(c, path, i - 1);
      }
    }
  }

  lemma FinishedEarlier(c: D.Config, x: State, x': State, t: Tid, y: State)
    requires ValidConfig(c) && Reachable(c, x) && Shape(c, x) && t < Threads(c) && ThreadStep(c, x, x', t)
    requires |x'.d.ops| == |x.d.ops| && Finished(x', y)
    ensures Finished(x, y)
  {
    var o: OpId :| o < |x'.d.ops| && o < |y.d.ops| && !x'.d.ops[o].returned && y.d.ops[o].returned;
    if x.d.ops[o].returned {
      StillReturned(c, x, x', t, o);
    }
  }

  /** An earlier step. */
  lemma Later(c: D.Config, x: State, x': State, t: Tid)
    requires ValidConfig(c) && Reachable(c, x) && Shape(c, x) && t < Threads(c) && ThreadStep(c, x, x', t)
    requires |x'.d.ops| == |x.d.ops| && CanFinish(c, x') && x' != x && !Sleeping(x.l.pc[t])
    ensures CanFinish(c, x)
  {
    var path: seq<State> :| Path(c, path) && path[0] == x' && Finished(x', path[|path| - 1]);
    assert Moves(c, x, x');
    Prepend(c, x, path);
    FinishedEarlier(c, x, x', t, path[|path| - 1]);
    PathFinishes(c, [x] + path, path[|path| - 1]);
  }

  lemma PathFinishes(c: D.Config, path: seq<State>, y: State)
    requires ValidConfig(c) && Path(c, path) && y == path[|path| - 1] && Finished(path[0], y)
    ensures CanFinish(c, path[0])
  {
  }

  /** A step after which the call can be finished. */
  lemma OneMove(c: D.Config, x: State, x': State, t: Tid)
    requires ValidConfig(c) && Reachable(c, x) && Shape(c, x) && t < Threads(c) && ThreadStep(c, x, x', t)
    requires x' != x && !Sleeping(x.l.pc[t]) && |x'.d.ops| == |x.d.ops|
    ensures Reachable(c, x') && Shape(c, x') && L.Inv(Threads(c), x'.l) && Glue(c, x')
    ensures Moves(c, x, x') && (CanFinish(c, x') ==> CanFinish(c, x))
  {
    StepReachable(c, x, x', t);
    LockFacts(c, x');
    if CanFinish(c, x') {
      Later(c, x, x', t);
    }
  }

  /** A step of delegate outside the lock. */
  lemma PlainMove(c: D.Config, x: State, d': D.State, t: Tid)
    requires ValidConfig(c) && Reachable(c, x) && Shape(c, x) && t < Threads(c) && D.ThreadStep(c, x.d, d', t)
    requires !Locking(x.d.pc[t]) && !x.d.pc[t].MUnlock? && !x.d.pc[t].Leaving? && !Checking(x.d.pc[t])
    requires |d'.ops| == |x.d.ops| && d' != x.d
    ensures Reachable(c, x.(d := d')) && Shape(c, x.(d := d')) && Glue(c, x.(d := d')) && L.Inv(Threads(c), x.l)
    ensures Moves(c, x, x.(d := d')) && (CanFinish(c, x.(d := d')) ==> CanFinish(c, x))
  {
    AwakeOutside(c, x, t);
    PlainIsStep(c, x, d', t);
    OneMove(c, x, x.(d := d'), t);
  }

  lemma PlainIsStep(c: D.Config, x: State, d': D.State, t: Tid)
    requires ValidConfig(c) && Shape(c, x) && t < Threads(c) && D.ThreadStep(c, x.d, d', t)
    requires !Locking(x.d.pc[t]) && !x.d.pc[t].MUnlock? && !x.d.pc[t].Leaving? && !Checking(x.d.pc[t])
    ensures ThreadStep(c, x, x.(d := d'), t)
  {
    assert PlainStep(c, x, x.(d := d'), t);
  }

  /** A thread outside the calls of the lock does not sleep. */
  lemma AwakeOutside(c: D.Config, x: State, t: Tid)
    requires ValidConfig(c) && Reachable(c, x) && Shape(c, x) && t < Threads(c)
    requires !Locking(x.d.pc[t]) && !x.d.pc[t].Leaving?
    ensures !Sleeping(x.l.pc[t])
  {
    LockFacts(c, x);
    assert Fits(x.d.pc[t], x.l.pc[t]);
  }

  /** A reader has called is_locked. */
  function CheckedState(c: D.Config, x: State, t: Tid): State
    requires t < |x.d.pc| && Checking(x.d.pc[t])
  {
    x.(d := D.Goto(x.d, t, Checked(c, x.d.pc[t], x.l.word)))
  }

  lemma CheckIsStep(c: D.Config, x: State, t: Tid)
    requires ValidConfig(c) && Shape(c, x) && t < Threads(c) && Checking(x.d.pc[t])
    ensures ThreadStep(c, x, CheckedState(c, x, t), t)
    ensures CheckedState(c, x, t) != x && |CheckedState(c, x, t).d.ops| == |x.d.ops|
  {
    assert Checked(c, x.d.pc[t], x.l.word) != x.d.pc[t];
    assert CheckedState(c, x, t).d.pc[t] != x.d.pc[t];
    assert CheckStep(c, x, CheckedState(c, x, t), t);
  }

  lemma CheckMove(c: D.Config, x: State, y: State, t: Tid)
    requires ValidConfig(c) && Reachable(c, x) && Shape(c, x) && t < Threads(c) && Checking(x.d.pc[t])
    requires y == CheckedState(c, x, t)
    ensures Reachable(c, y) && Shape(c, y) && L.Inv(Threads(c), y.l) && Glue(c, y)
    ensures Moves(c, x, y) && (CanFinish(c, y) ==> CanFinish(c, x))
  {
    AwakeOutside(c, x, t);
    CheckIsStep(c, x, t);
    OneMove(c, x, y, t);
  }
}
