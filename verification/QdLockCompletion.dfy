/** From every reachable state of qdlock all the calls that have begun can be brought to their end. */
module QdLockCompletion {
  import opened Prelude
  import opened QdLock
  import opened QdLockPaths
  import opened QdLockProgress
  import D = Delegation
  import DT = DelegationTheorems

  function Unfinished(x: State): set<OpId> {
    set o: OpId | o < |x.d.ops| && !x.d.ops[o].returned
  }

  /** A state from which x has only moved on: the same calls, of which no more are unfinished. */
  ghost predicate MovesOn(x: State, y: State) {
    |x.d.ops| <= |y.d.ops| && forall o :: 0 <= o < |x.d.ops| && x.d.ops[o].returned ==> y.d.ops[o].returned
  }

  lemma StepGrowsOps(c: D.Config, x: State, x': State, t: Tid)
    requires ValidConfig(c) && Reachable(c, x) && Shape(c, x) && t < Threads(c) && ThreadStep(c, x, x', t)
    ensures MovesOn(x, x')
  {
    forall o | 0 <= o < |x.d.ops| && x.d.ops[o].returned ensures o < |x'.d.ops| && x'.d.ops[o].returned {
      StillReturned(c, x, x', t, o);
    }
    SizeGrows(c, x, x', t);
  }

  lemma SizeGrows(c: D.Config, x: State, x': State, t: Tid)
    requires ValidConfig(c) && Reachable(c, x) && Shape(c, x) && t < Threads(c) && ThreadStep(c, x, x', t)
    ensures |x.d.ops| <= |x'.d.ops|
  {
    ReachableInv(c, x);
    StepKeepsInv(c, x, x', t);
    if x'.d != x.d {
      DT.StepGrows(c, x.d, x'.d, t);
    }
  }

  lemma StepMovesOn(c: D.Config, x: State, y: State, z: State)
    requires ValidConfig(c) && Reachable(c, y) && Moves(c, y, z) && MovesOn(x, y)
    ensures Reachable(c, z) && MovesOn(x, z)
  {
    var t: Tid :| t < Threads(c) && !Sleeping(y.l.pc[t]) && ThreadStep(c, y, z, t);
    StepReachable(c, y, z, t);
    StepGrowsOps(c, y, z, t);
  }

  lemma MoveOf(c: D.Config, path: seq<State>, i: nat, x: State, y: State)
    requires ValidConfig(c) && Path(c, path) && i + 1 < |path| && x == path[i] && y == path[i + 1]
    ensures Moves(c, x, y)
  {
    assert MovesAt(c, path, i);
  }

  lemma {:induction false} PathMovesOn(c: D.Config, path: seq<State>, i: nat, x: State, y: State)
    requires ValidConfig(c) && Path(c, path) && i < |path| && x == path[0] && y == path[i] && Reachable(c, x)
    ensures Reachable(c, y) && MovesOn(x, y)
  {
    if i > 0 {
      var w := path[i - 1];
      PathMovesOn(c, path, i - 1, x, w);
      MoveOf(c, path, i - 1, w, y);
      StepMovesOn(c, x, w, y);
    }
  }

  ghost predicate CanComplete(c: D.Config, x: State)
    requires ValidConfig(c)
  {
    exists path :: Path(c, path) && path[0] == x && Complete(x, path[|path| - 1])
  }

  /** The calls that had begun in x, and no others, have begun and returned in y. */
  ghost predicate Complete(x: State, y: State) {
    |y.d.ops| == |x.d.ops| && Unfinished(y) == {}
  }

  lemma Join(c: D.Config, p: seq<State>, r: seq<State>)
    requires ValidConfig(c) && Path(c, p) && Path(c, r) && p[|p| - 1] == r[0]
    ensures Path(c, p + r[1..]) && (p + r[1..])[0] == p[0] && (p + r[1..])[|p + r[1..]| - 1] == r[|r| - 1]
  {
    var all := p + r[1..];
    forall i | 0 <= i < |all| - 1 ensures MovesAt(c, all, i) {
      if i < |p| - 1 {
        assert MovesAt(c, p, i);
      } else {
        var j := i - |p| + 1;
        assert MovesAt(c, r, j);
        assert all[i] == r[j] && all[i + 1] == r[j + 1];
      }
    }
  }

  lemma FewerUnfinished(x: State, y: State)
    requires MovesOn(x, y) && Finished(x, y)
    ensures |Unfinished(y)| < |Unfinished(x)|
  {
    var o: OpId :| o < |x.d.ops| && o < |y.d.ops| && !x.d.ops[o].returned && y.d.ops[o].returned;
    assert o in Unfinished(x) && o !in Unfinished(y);
    var rest := Unfinished(x) - {o};
    assert Unfinished(y) <= rest;
    SubsetSize(Unfinished(y), rest);
    SizeWithout(Unfinished(x), rest, o);
  }

  lemma Continue(c: D.Config, path: seq<State>)
    requires ValidConfig(c) && Path(c, path) && |path[|path| - 1].d.ops| == |path[0].d.ops|
    requires CanComplete(c, path[|path| - 1])
    ensures CanComplete(c, path[0])
  {
    var y := path[|path| - 1];
    var rest: seq<State> :| Path(c, rest) && rest[0] == y && Complete(y, rest[|rest| - 1]);
    Join(c, path, rest);
    var all := path + rest[1..];
    assert Complete(path[0], all[|all| - 1]);
  }

  lemma FinishOne(c: D.Config, x: State, o: OpId) returns (path: seq<State>, y: State)
    requires ValidConfig(c) && Reachable(c, x) && o in Unfinished(x)
    ensures Path(c, path) && path[0] == x && path[|path| - 1] == y
    ensures Reachable(c, y) && |y.d.ops| == |x.d.ops| && |Unfinished(y)| < |Unfinished(x)|
  {
    NoDeadlock(c, x, o);
    path :| Path(c, path) && path[0] == x && Finished(x, path[|path| - 1]);
    y := path[|path| - 1];
    PathMovesOn(c, path, |path| - 1, x, y);
    FewerUnfinished(x, y);
  }

  /** Whatever has happened, all calls can return: every wait can be resolved. */
  lemma {:induction false} AllCallsCanReturn(c: D.Config, x: State)
    requires ValidConfig(c) && Reachable(c, x)
    ensures CanComplete(c, x)
    decreases |Unfinished(x)|
  {
    if Unfinished(x) == {} {
      assert Path(c, [x]) && Complete(x, [x][|[x]| - 1]);
    } else {
      var o: OpId :| o in Unfinished(x);
      var path, y := FinishOne(c, x, o);
      AllCallsCanReturn(c, y);
      Continue(c, path);
    }
  }
}
