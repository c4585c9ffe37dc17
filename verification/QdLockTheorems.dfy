/** What qdlock and mrqdlock promise as composed with their lock. */
module QdLockTheorems {
  import opened Prelude
  import opened QdLock
  import opened QdLockPaths
  import opened QdLockReaders
  import opened QdLockCompletion
  import D = Delegation
  import DT = DelegationTheorems
  import L = McsFutexLock

  // ---------- carried over from the protocol ----------

  lemma ProtocolReachable(c: D.Config, x: State)
    requires ValidConfig(c) && Reachable(c, x)
    ensures D.Reachable(c, x.d)
  {
    var run :| Run(c, run) && run[|run| - 1] == x;
    RefinesParts(c, run, |run| - 1, x);
  }

  /** No reader is inside while a section runs, with is_locked a load of the word of mcs_futex_lock. */
  lemma ReadersExcluded(c: D.Config, x: State, t: Tid, r: Tid)
    requires ValidConfig(c) && Reachable(c, x)
    requires t < |x.d.pc| && r < |x.d.pc| && D.InSection(x.d.pc[t])
    ensures !D.InReadSection(x.d.pc[r])
  {
    ProtocolReachable(c, x);
    DT.ReadersExcluded(c, x.d, t, r);
  }

  /** Sections do not overlap, and whoever runs one holds mcs_futex_lock. */
  lemma SectionsExclusive(c: D.Config, x: State, t: Tid, u: Tid)
    requires ValidConfig(c) && Reachable(c, x)
    requires t < |x.d.pc| && u < |x.d.pc| && D.InSection(x.d.pc[t]) && D.InSection(x.d.pc[u])
    ensures t == u && t < |x.l.pc| && x.l.pc[t].Holding?
  {
    ProtocolReachable(c, x);
    DT.SectionsExclusive(c, x.d, t, u);
    LockFacts(c, x);
    assert Fits(x.d.pc[t], x.l.pc[t]);
  }

  /** A logged section comes after those of all calls that had returned when its own began. */
  lemma LogRespectsReturns(c: D.Config, x: State, p: nat, a: OpId)
    requires ValidConfig(c) && Reachable(c, x) && p < |x.d.log|
    requires x.d.log[p] < |x.d.ops| && a in x.d.ops[x.d.log[p]].before
    ensures exists q :: 0 <= q < p && x.d.log[q] == a
  {
    ProtocolReachable(c, x);
    DT.LogRespectsReturns(c, x.d, p, a);
  }

  // ---------- readers get in ----------

  /** In rlock, not let in yet. */
  predicate InRlock(pc: D.PC) {
    pc.Reader? && !D.InReadSection(pc)
  }

  ghost predicate Reaches(c: D.Config, x: State, y: State)
    requires ValidConfig(c)
  {
    exists path :: Path(c, path) && path[0] == x && path[|path| - 1] == y
  }

  lemma ReachesSelf(c: D.Config, x: State)
    requires ValidConfig(c)
    ensures Reaches(c, x, x)
  {
    assert Path(c, [x]) && [x][|[x]| - 1] == x;
  }

  lemma ReachesOneMore(c: D.Config, x: State, y: State, z: State)
    requires ValidConfig(c) && Moves(c, x, y) && Reaches(c, y, z)
    ensures Reaches(c, x, z)
  {
    var path: seq<State> :| Path(c, path) && path[0] == y && path[|path| - 1] == z;
    Prepend(c, x, path);
    var longer := [x] + path;
    assert longer[0] == x && longer[|longer| - 1] == z;
  }

  lemma ReachesOn(c: D.Config, x: State, y: State, z: State)
    requires ValidConfig(c) && Reaches(c, x, y) && Reaches(c, y, z)
    ensures Reaches(c, x, z)
  {
    var p: seq<State> :| Path(c, p) && p[0] == x && p[|p| - 1] == y;
    var r: seq<State> :| Path(c, r) && r[0] == y && r[|r| - 1] == z;
    Join(c, p, r);
  }

  /** How far a reader in rlock is from being let in, while the lock is free. */
  function ToEnter(pc: D.PC): nat {
    if !pc.Reader? then 0
    else match pc.rp
      case Depart => 8
      case Raise => 7
      case Spin(free) => if free then 5 else 6
      case Arrive => 4
      case Check(free) => if free then 2 else 3
      case _ => 0
  }

  lemma CloserToEnter(c: D.Config, pc: D.PC)
    requires InRlock(pc)
    ensures NextPoint(c, pc, L.FREE).Reader? && ToEnter(NextPoint(c, pc, L.FREE)) < ToEnter(pc)
  {
  }

  /** While the lock is free, a reader gets in by its own steps. */
  lemma {:induction false} LetIn(c: D.Config, x: State, r: Tid) returns (y: State)
    requires ValidConfig(c) && Reachable(c, x) && Shape(c, x) && r < Threads(c) && x.d.pc[r].Reader?
    requires x.l.word == L.FREE
    ensures Reaches(c, x, y) && r < |y.d.pc| && D.InReadSection(y.d.pc[r])
    decreases ToEnter(x.d.pc[r])
  {
    if InRlock(x.d.pc[r]) {
      var z := ReaderMove(c, x, r);
      CloserToEnter(c, x.d.pc[r]);
      y := LetIn(c, z, r);
      ReachesOneMore(c, x, z, y);
    } else {
      y := x;
      ReachesSelf(c, x);
    }
  }

  /** When all calls have returned the lock is free. */
  lemma FreeWhenDone(c: D.Config, y: State)
    requires ValidConfig(c) && Reachable(c, y) && Unfinished(y) == {}
    ensures Shape(c, y) && y.l.word == L.FREE
  {
    LockFacts(c, y);
    forall t | 0 <= t < Threads(c) ensures y.l.pc[t].Out? {
      if D.HasCall(y.d.pc[t]) {
        CallIsUnfinished(c, y, t);
      }
      assert Fits(y.d.pc[t], y.l.pc[t]);
    }
    if y.l.left < |y.l.joined| {
      SomeMember(Threads(c), y.l);
    }
  }

  lemma CallIsUnfinished(c: D.Config, y: State, t: Tid)
    requires ValidConfig(c) && Reachable(c, y) && Shape(c, y) && t < Threads(c) && D.HasCall(y.d.pc[t])
    ensures Unfinished(y) != {}
  {
    CallFacts(c, y, t);
    assert y.d.pc[t].op in Unfinished(y);
  }

  lemma SomeMember(threads: nat, l: L.State)
    requires L.Inv(threads, l) && l.left < |l.joined|
    ensures exists t :: 0 <= t < threads && L.Member(l.pc[t])
  {
    assert L.PlaceOk(threads, l, l.left);
  }

  /** A thread leaves rlock only by being let in. */
  lemma StaysInRlock(c: D.Config, x: State, x': State, r: Tid)
    requires ValidConfig(c) && Reachable(c, x) && Moves(c, x, x') && Shape(c, x) && r < Threads(c) && InRlock(x.d.pc[r])
    ensures Shape(c, x') && (InRlock(x'.d.pc[r]) || D.InReadSection(x'.d.pc[r]))
  {
    var t: Tid :| t < Threads(c) && !Sleeping(x.l.pc[t]) && ThreadStep(c, x, x', t);
    MoveShape(c, x, x');
    if t == r {
      LockFacts(c, x);
      assert Fits(x.d.pc[r], x.l.pc[r]);
      RlockSteps(c, x, x', r);
    } else {
      OthersElsewhere(c, x, x', t, r);
    }
  }

  lemma RlockSteps(c: D.Config, x: State, x': State, r: Tid)
    requires ValidConfig(c) && Shape(c, x) && Shape(c, x') && r < Threads(c) && InRlock(x.d.pc[r]) && x.l.pc[r].Out?
    requires ThreadStep(c, x, x', r)
    ensures InRlock(x'.d.pc[r]) || D.InReadSection(x'.d.pc[r])
  {
    if LockStep(c, x, x', r) {
      StaysInside(Threads(c), x.l, x'.l, r);
      assert false;
    } else if PlainStep(c, x, x', r) {
      assert D.ReaderStep(c, x.d, x'.d, r);
    }
  }

  lemma OthersElsewhere(c: D.Config, x: State, x': State, t: Tid, r: Tid)
    requires ValidConfig(c) && Reachable(c, x) && Shape(c, x) && Shape(c, x') && t < Threads(c) && r < Threads(c)
    requires r != t
    requires ThreadStep(c, x, x', t)
    ensures x'.d.pc[r] == x.d.pc[r]
  {
    ReachableInv(c, x);
    StepKeepsInv(c, x, x', t);
    if x'.d != x.d {
      OtherPoints(c, x.d, x'.d, t, r);
    }
  }

  lemma OtherPoints(c: D.Config, d: D.State, d': D.State, t: Tid, r: Tid)
    requires ValidConfig(c) && D.Shape(c, d) && D.Shape(c, d') && t < Threads(c) && r < Threads(c) && r != t
    requires D.ThreadStep(c, d, d', t)
    ensures d'.pc[r] == d.pc[r]
  {
    if D.EnqueueStep(c, d, d', t) {
    } else if D.FlushStep(c, d, d', t) {
    } else if D.CallStep(c, d, d', t) {
    } else if D.GuardStep(c, d, d', t) {
    } else if D.OwnStep(c, d, d', t) {
    } else if D.ReaderStep(c, d, d', t) {
    } else {
      var req: nat, direct: bool :| D.StartCall(c, d, d', t, req, direct);
    }
  }

  /** In z thread r has been let in, or z is y and r is still in rlock. */
  ghost predicate InOrAt(z: State, y: State, r: Tid) {
    r < |z.d.pc| && (D.InReadSection(z.d.pc[r]) || (z == y && InRlock(z.d.pc[r])))
  }

  /** Along a path a thread in rlock is let in at some point, or is still in rlock at the end. */
  lemma {:induction false} InOrStill(c: D.Config, path: seq<State>, j: nat, x: State, y: State,
                                     r: Tid) returns (z: State)
    requires ValidConfig(c) && Path(c, path) && j < |path| && x == path[0] && y == path[j]
    requires Reachable(c, x) && Shape(c, x) && r < Threads(c) && InRlock(x.d.pc[r])
    ensures Shape(c, y) && Reaches(c, x, z) && InOrAt(z, y, r)
  {
    if j == 0 {
      z := x;
      ReachesSelf(c, x);
    } else {
      var w := path[j - 1];
      var before := InOrStill(c, path, j - 1, x, w, r);
      PathMovesOn(c, path, j - 1, x, w);
      MoveOf(c, path, j - 1, w, y);
      z := StillOr(c, x, w, y, before, r);
    }
  }

  lemma StillOr(c: D.Config, x: State, w: State, y: State, before: State, r: Tid) returns (z: State)
    requires ValidConfig(c) && Reachable(c, w) && Shape(c, w) && r < Threads(c) && Moves(c, w, y)
    requires Reaches(c, x, before) && InOrAt(before, w, r)
    ensures Shape(c, y) && Reaches(c, x, z) && InOrAt(z, y, r)
  {
    MoveShape(c, w, y);
    if D.InReadSection(before.d.pc[r]) {
      z := before;
    } else {
      StaysInRlock(c, w, y, r);
      ReachesSelf(c, y);
      ReachesOneMore(c, w, y, y);
      ReachesOn(c, x, w, y);
      z := y;
    }
  }

  lemma MoveShape(c: D.Config, x: State, x': State)
    requires ValidConfig(c) && Reachable(c, x) && Moves(c, x, x')
    ensures Shape(c, x')
  {
    var t: Tid :| t < Threads(c) && !Sleeping(x.l.pc[t]) && ThreadStep(c, x, x', t);
    StepReachable(c, x, x', t);
    LockFacts(c, x');
  }

  /**
   * From every reachable state a thread in rlock can be let in: all calls can return, and then it gets in if it
   * has not before.
   */
  lemma ReadersCanEnter(c: D.Config, x: State, r: Tid) returns (y: State)
    requires ValidConfig(c) && Reachable(c, x) && Shape(c, x) && r < Threads(c) && InRlock(x.d.pc[r])
    ensures Reaches(c, x, y) && r < |y.d.pc| && D.InReadSection(y.d.pc[r])
  {
    AllCallsCanReturn(c, x);
    var path: seq<State> :| Path(c, path) && path[0] == x && Complete(x, path[|path| - 1]);
    var end := path[|path| - 1];
    y := InOrStill(c, path, |path| - 1, x, end, r);
    if !D.InReadSection(y.d.pc[r]) {
      PathMovesOn(c, path, |path| - 1, x, end);
      FreeWhenDone(c, end);
      var z := LetIn(c, end, r);
      ReachesOn(c, x, end, z);
      y := z;
    }
  }
}
