/**
 * The three ways of a call: run by its own thread as executor, run as helper, or handed over.
 * Which one is taken follows from where the mutex was taken, and a plain lock() is never handed over.
 */
module DelegationRoles {
  import opened Prelude
  import opened TantrumQueue
  import opened Delegation
  import opened DelegationInvariant
  import opened DelegationCalls
  import opened DelegationSteps
  import opened DelegationTheorems

  /** A step of t changes no other thread's program point. */
  lemma OnlyMover(c: Config, s: State, s': State, t: Tid)
    requires ValidConfig(c) && Shape(c, s) && t < |s.pc| && ThreadStep(c, s, s', t)
    ensures |s'.pc| == |s.pc| && s'.pc == s.pc[t := s'.pc[t]]
  {
    if EnqueueStep(c, s, s', t) {
    } else if FlushStep(c, s, s', t) {
      MovesInFlush(c, s, s', t);
    } else if OwnStep(c, s, s', t) {
    } else if GuardStep(c, s, s', t) {
    } else if ReaderStep(c, s, s', t) {
    } else if CallStep(c, s, s', t) {
    } else {
    }
  }

  lemma MovesInFlush(c: Config, s: State, s': State, t: Tid)
    requires ValidConfig(c) && Shape(c, s) && t < |s.pc| && FlushStep(c, s, s', t)
    ensures |s'.pc| == |s.pc| && s'.pc == s.pc[t := s'.pc[t]]
  {
  }

  // ---------- plain lock() ----------

  /** Where a plain lock() can be: it waits for writers, locks, holds the lock as executor, unlocks. */
  predicate PlainPoint(pc: PC) {
    || (pc.Calling? && (pc.at.WaitWriters? || pc.at.LockSlow?))
    || (pc.HLock? && !pc.helper)
    || (pc.Own? && !pc.helper)
    || pc.HUnlock? || pc.MUnlock? || pc.Leaving?
  }

  /** A delegated call locks like a plain one only at the end of its retries, which only one policy has. */
  predicate KindOk(c: Config, pc: PC, direct: bool) {
    if direct then PlainPoint(pc) else pc.Calling? && pc.at.LockSlow? ==> c.limited
  }

  ghost predicate PointOk(c: Config, s: State, t: Tid)
    requires t < |s.pc|
  {
    HasCall(s.pc[t]) ==> s.pc[t].op < |s.ops| && KindOk(c, s.pc[t], s.ops[s.pc[t].op].direct)
  }

  ghost predicate Kinds(c: Config, s: State) {
    && (forall t :: 0 <= t < |s.pc| ==> PointOk(c, s, t))
    && (forall o :: 0 <= o < |s.ops| && s.ops[o].direct ==> !s.ops[o].status.Queued?)
  }

  ghost predicate SameKinds(ops: seq<Call>, ops': seq<Call>) {
    |ops| <= |ops'| && forall o :: 0 <= o < |ops| ==> ops'[o].direct == ops[o].direct
  }

  lemma KindsMoved(c: Config, s: State, s': State, t: Tid)
    requires t < |s.pc| == |s'.pc| && Kinds(c, s) && s'.pc == s.pc[t := s'.pc[t]] && SameKinds(s.ops, s'.ops)
    requires PointOk(c, s', t)
    requires forall o :: 0 <= o < |s'.ops| && s'.ops[o].direct ==> !s'.ops[o].status.Queued?
    ensures Kinds(c, s')
  {
    forall u | 0 <= u < |s'.pc| ensures PointOk(c, s', u) {
      assert u != t ==> PointOk(c, s, u);
    }
  }

  lemma KindsOnCall(c: Config, s: State, s': State, t: Tid)
    requires ValidConfig(c) && Shape(c, s) && t < |s.pc| && Kinds(c, s) && CallStep(c, s, s', t)
    ensures Kinds(c, s')
  {
    assert PointOk(c, s, t);
    KindsMoved(c, s, s', t);
  }

  lemma KindsOnEnqueue(c: Config, s: State, s': State, t: Tid)
    requires ValidConfig(c) && Shape(c, s) && t < |s.pc| && Kinds(c, s) && EnqueueStep(c, s, s', t)
    ensures Kinds(c, s')
  {
    assert PointOk(c, s, t);
    KindsMoved(c, s, s', t);
  }

  lemma KindsOnFlush(c: Config, s: State, s': State, t: Tid)
    requires ValidConfig(c) && Shape(c, s) && t < |s.pc| && Kinds(c, s) && FlushStep(c, s, s', t)
    ensures Kinds(c, s')
  {
    assert PointOk(c, s, t);
    FlushPoints(c, s, s', t);
    KindsMoved(c, s, s', t);
  }

  lemma FlushPoints(c: Config, s: State, s': State, t: Tid)
    requires ValidConfig(c) && Shape(c, s) && t < |s.pc| && FlushStep(c, s, s', t)
    ensures |s'.pc| == |s.pc| && s'.pc == s.pc[t := s'.pc[t]] && SameKinds(s.ops, s'.ops) && |s'.ops| == |s.ops|
    ensures (s'.pc[t].Flush? || s'.pc[t].HUnlock?) && s'.pc[t].op == s.pc[t].op
    ensures forall o :: 0 <= o < |s.ops| && s'.ops[o].status.Queued? ==> s.ops[o].status.Queued?
  {
  }

  lemma KindsOnGuard(c: Config, s: State, s': State, t: Tid)
    requires ValidConfig(c) && Shape(c, s) && t < |s.pc| && Kinds(c, s) && GuardStep(c, s, s', t)
    ensures Kinds(c, s')
  {
    assert PointOk(c, s, t);
    KindsMoved(c, s, s', t);
  }

  lemma KindsOnOwn(c: Config, s: State, s': State, t: Tid)
    requires ValidConfig(c) && Shape(c, s) && t < |s.pc| && Kinds(c, s) && OwnStep(c, s, s', t)
    ensures Kinds(c, s')
  {
    assert PointOk(c, s, t);
    KindsMoved(c, s, s', t);
  }

  lemma KindsOnReader(c: Config, s: State, s': State, t: Tid)
    requires ValidConfig(c) && Shape(c, s) && t < |s.pc| && Kinds(c, s) && ReaderStep(c, s, s', t)
    ensures Kinds(c, s')
  {
    KindsMoved(c, s, s', t);
  }

  lemma NextKeepsKinds(c: Config, s: State, s': State)
    requires ValidConfig(c) && Shape(c, s) && Next(c, s, s') && Kinds(c, s)
    ensures Kinds(c, s')
  {
    var t: Tid :| t < |s.pc| && ThreadStep(c, s, s', t);
    if CallStep(c, s, s', t) {
      KindsOnCall(c, s, s', t);
    } else if EnqueueStep(c, s, s', t) {
      KindsOnEnqueue(c, s, s', t);
    } else if FlushStep(c, s, s', t) {
      KindsOnFlush(c, s, s', t);
    } else if GuardStep(c, s, s', t) {
      KindsOnGuard(c, s, s', t);
    } else if OwnStep(c, s, s', t) {
      KindsOnOwn(c, s, s', t);
    } else if ReaderStep(c, s, s', t) {
      KindsOnReader(c, s, s', t);
    } else {
      KindsMoved(c, s, s', t);
    }
  }

  lemma {:induction false} RunKeepsKinds(c: Config, run: seq<State>, i: nat, s: State)
    requires ValidConfig(c) && Run(c, run) && i < |run| && s == run[i]
    ensures Kinds(c, s)
  {
    if i > 0 {
      var before := run[i - 1];
      RunKeepsKinds(c, run, i - 1, before);
      StepOf(c, run, i - 1, before, s);
      NextKeepsKinds(c, before, s);
    }
  }

  lemma ReachableKinds(c: Config, s: State)
    requires ValidConfig(c) && Reachable(c, s)
    ensures Kinds(c, s)
  {
    var run :| Run(c, run) && run[|run| - 1] == s;
    RunKeepsKinds(c, run, |run| - 1, s);
  }

  /** A plain lock() is never handed over: no thread tries to enqueue it, and it is in no queue. */
  lemma PlainStaysOwn(c: Config, s: State, o: OpId, t: Tid)
    requires ValidConfig(c) && Reachable(c, s) && o < |s.ops| && s.ops[o].direct
    ensures !s.ops[o].status.Queued?
    ensures t < |s.pc| && HasCall(s.pc[t]) && s.pc[t].op == o ==> PlainPoint(s.pc[t])
    ensures s.ops[o].returned ==> o in s.log
  {
    ReachableKinds(c, s);
    assert t < |s.pc| ==> PointOk(c, s, t);
    ReachableInv(c, s);
  }

  /** In every reachable state an idle thread can call lock as well as delegate, with any number of slots. */
  lemma BothKindsBegin(c: Config, s: State, t: Tid, req: nat, direct: bool) returns (s': State)
    requires ValidConfig(c) && Reachable(c, s) && t < |s.pc| && s.pc[t].Idle? && 1 <= req <= c.maxReq
    ensures Reachable(c, s') && Shape(c, s) && ThreadStep(c, s, s', t)
    ensures t < |s'.pc| && HasCall(s'.pc[t]) && s'.pc[t].op == |s.ops| < |s'.ops|
    ensures s'.ops[|s.ops|].thread == t && s'.ops[|s.ops|].req == req && s'.ops[|s.ops|].direct == direct
    ensures !s'.ops[|s.ops|].returned && s'.log == s.log
  {
    ReachableInv(c, s);
    s' := StartOf(c, s, t, req, direct);
    NextReaches(c, s, s');
  }

  lemma StartOf(c: Config, s: State, t: Tid, req: nat, direct: bool) returns (s': State)
    requires ValidConfig(c) && Shape(c, s) && t < |s.pc| && s.pc[t].Idle? && 1 <= req <= c.maxReq
    ensures Shape(c, s') && ThreadStep(c, s, s', t) && Next(c, s, s')
    ensures t < |s'.pc| && HasCall(s'.pc[t]) && s'.pc[t].op == |s.ops| < |s'.ops|
    ensures s'.ops[|s.ops|] == Call(t, req, direct, Returned(s.ops), Active, false) && s'.log == s.log
  {
    s' := Goto(s, t, Calling(|s.ops|, WaitWriters))
          .(ops := s.ops + [Call(t, req, direct, Returned(s.ops), Active, false)]);
    assert StartCall(c, s, s', t, req, direct);
    assert Shape(c, s');
    assert ThreadStep(c, s, s', t);
  }

  /** A delegated call takes the lock like a plain one only under the policy that limits its retries. */
  lemma DelegatedLocksLate(c: Config, s: State, t: Tid)
    requires ValidConfig(c) && Reachable(c, s) && t < |s.pc| && s.pc[t].Calling? && s.pc[t].at.LockSlow?
    ensures s.pc[t].op < |s.ops| && (s.ops[s.pc[t].op].direct || c.limited)
  {
    ReachableKinds(c, s);
    assert PointOk(c, s, t);
  }

  /** A plain lock() is run by its own thread, while that thread holds its node's mutex, with the queue closed. */
  lemma PlainRunsItself(c: Config, s: State, s': State, t: Tid, o: OpId)
    requires ValidConfig(c) && Reachable(c, s) && t < |s.pc| && ThreadStep(c, s, s', t)
    requires o < |s.ops| && s.ops[o].direct && o !in s.log && o in s'.log
    ensures s.ops[o].thread == t && t < |c.node| && c.node[t] < |s.q| && c.node[t] < |s.mutex|
    ensures s.mutex[c.node[t]] == Some(t) && Quiet(s.q[c.node[t]])
  {
    PlainStaysOwn(c, s, o, t);
    ReachableInv(c, s);
    WhoLogs(c, s, s', t, o);
    ExecutorAlone(c, s, t);
  }

  /** A section is logged by its own thread at its own section, or taken from the queue. */
  lemma WhoLogs(c: Config, s: State, s': State, t: Tid, o: OpId)
    requires ValidConfig(c) && Inv(c, s) && t < |s.pc| && ThreadStep(c, s, s', t) && o !in s.log && o in s'.log
    ensures o < |s.ops|
    ensures (s.pc[t].Own? && s.pc[t].point.Section? && s.pc[t].op == o && s.ops[o].thread == t)
      || (s.pc[t].Flush? && s.ops[o].status.Queued? && s.ops[o].returned)
  {
    if FlushStep(c, s, s', t) {
      FlushLogs(c, s, s', t, o);
    } else if OwnStep(c, s, s', t) {
      assert s.pc[t].Own? && s.pc[t].point.Section?;
    } else {
      OthersLogNothing(c, s, s', t);
    }
  }

  lemma FlushLogs(c: Config, s: State, s': State, t: Tid, o: OpId)
    requires ValidConfig(c) && Inv(c, s) && t < |s.pc| && FlushStep(c, s, s', t) && o !in s.log && o in s'.log
    ensures o < |s.ops| && s.pc[t].Flush? && s.ops[o].status.Queued? && s.ops[o].returned
  {
    assert InSection(s.pc[t]);
    TakenIsReturned(c, s, t);
  }

  lemma TakenIsReturned(c: Config, s: State, t: Tid)
    requires ValidConfig(c) && Inv(c, s) && t < |s.pc| && s.pc[t].Flush? && InSection(s.pc[t])
    ensures s.pc[t].fp.index < |s.q[c.node[t]].cells|
    ensures
      var o := s.q[c.node[t]].cells[s.pc[t].fp.index].op;
      o < |s.ops| && s.ops[o].status.Queued? && s.ops[o].returned
  {
    EntryHasReturned(c, s, t);
  }

  lemma OthersLogNothing(c: Config, s: State, s': State, t: Tid)
    requires ValidConfig(c) && Shape(c, s) && t < |s.pc| && ThreadStep(c, s, s', t)
    requires !FlushStep(c, s, s', t) && !OwnStep(c, s, s', t)
    ensures s'.log == s.log
  {
  }

  lemma ExecutorAlone(c: Config, s: State, t: Tid)
    requires ValidConfig(c) && Shape(c, s) && Locks(c, s) && Queues(c, s) && t < |s.pc|
    requires s.pc[t].Own? && !s.pc[t].helper
    ensures s.mutex[c.node[t]] == Some(t) && Quiet(s.q[c.node[t]])
  {
    assert !Helped(c, s, c.node[t]);
  }

  // ---------- helper or executor ----------

  /** t has taken the mutex for this call, as helper or as executor, and has not run its section yet. */
  predicate OnTrack(pc: PC, op: OpId, helper: bool) {
    || pc == HLock(op, helper)
    || (helper && pc == OpenQueue(op))
    || (pc.Own? && pc.op == op && pc.helper == helper)
  }

  /** Who takes the mutex in the retry loop becomes helper, everybody else executor. */
  lemma TakesAs(c: Config, s: State, s': State, t: Tid)
    requires ValidConfig(c) && Shape(c, s) && t < |s.pc| && ThreadStep(c, s, s', t)
    requires s.pc[t].Calling? && t < |s'.pc| && HoldsMutex(s'.pc[t])
    ensures s'.pc[t] == HLock(s.pc[t].op, s.pc[t].at.TryAgain?)
    ensures s.mutex[c.node[t]] == None
  {
  }

  /** A step of t either stays on the track or runs the section. */
  lemma TrackStep(c: Config, s: State, s': State, t: Tid, op: OpId, helper: bool)
    requires ValidConfig(c) && Shape(c, s) && t < |s.pc| && ThreadStep(c, s, s', t) && OnTrack(s.pc[t], op, helper)
    requires op !in s'.log
    ensures t < |s'.pc| && OnTrack(s'.pc[t], op, helper)
    ensures s'.pc[t].Own? && !s.pc[t].Own? ==> helper == s.pc[t].OpenQueue?
    ensures s.pc[t].OpenQueue? ==> c.node[t] < |s'.q| && s'.q[c.node[t]] == Open(s.q[c.node[t]])
  {
    if GuardStep(c, s, s', t) {
    } else {
      assert OwnStep(c, s, s', t);
    }
  }

  /** In step k of a run thread t opens the queue of its node for this call. */
  ghost predicate OpensAt(c: Config, run: seq<State>, k: nat, t: Tid, op: OpId)
    requires t < |c.node|
  {
    && k + 1 < |run| && t < |run[k].pc| && run[k].pc[t] == OpenQueue(op)
    && c.node[t] < |run[k].q| && c.node[t] < |run[k + 1].q|
    && run[k + 1].q[c.node[t]] == Open(run[k].q[c.node[t]])
  }

  ghost predicate OpensWithin(c: Config, run: seq<State>, i: nat, j: nat, t: Tid, op: OpId)
    requires t < |c.node|
  {
    exists k: nat :: i <= k < j && OpensAt(c, run, k, t, op)
  }

  /** Step by step along a run, until the section is logged. */
  lemma {:induction false} TrackRuns(c: Config, run: seq<State>, i: nat, j: nat, s: State, t: Tid, op: OpId,
                                     helper: bool)
    requires ValidConfig(c) && Run(c, run) && i <= j < |run| && s == run[j] && t < |c.node|
    requires t < |run[i].pc| && run[i].pc[t] == HLock(op, helper) && op !in s.log
    ensures t < |s.pc| && OnTrack(s.pc[t], op, helper)
    ensures helper && s.pc[t].Own? ==> OpensWithin(c, run, i, j, t, op)
    decreases j
  {
    if i < j {
      var w := run[j - 1];
      StepOf(c, run, j - 1, w, s);
      RunStepGrows(c, run, j - 1, w, s);
      TrackRuns(c, run, i, j - 1, w, t, op, helper);
      NextOnTrack(c, w, s, t, op, helper);
      if helper && s.pc[t].Own? {
        if w.pc[t].Own? {
          var k: nat :| i <= k < j - 1 && OpensAt(c, run, k, t, op);
        } else {
          assert OpensAt(c, run, j - 1, t, op);
        }
      }
    }
  }

  lemma NextOnTrack(c: Config, s: State, s': State, t: Tid, op: OpId, helper: bool)
    requires ValidConfig(c) && Shape(c, s) && Shape(c, s') && t < |s.pc| && Next(c, s, s')
    requires OnTrack(s.pc[t], op, helper) && op !in s'.log
    ensures OnTrack(s'.pc[t], op, helper)
    ensures s'.pc[t].Own? && !s.pc[t].Own? && helper ==>
      s.pc[t] == OpenQueue(op) && s'.q[c.node[t]] == Open(s.q[c.node[t]])
  {
    var u: Tid :| u < |s.pc| && ThreadStep(c, s, s', u);
    if u == t {
      TrackStep(c, s, s', t, op, helper);
    } else {
      OnlyMover(c, s, s', u);
    }
  }

  /**
   * Helping, over a run: if step i takes the mutex in the retry loop and step j runs the call's own section, then in
   * between the thread has opened its node's queue, and it is helping when it runs the section.
   */
  lemma RetryTakerHelps(c: Config, run: seq<State>, i: nat, j: nat, t: Tid, op: OpId)
    requires ValidConfig(c) && Run(c, run) && i < j && j + 1 < |run| && t < |c.node|
    requires t < |run[i].pc| && run[i].pc[t].Calling? && run[i].pc[t].at.TryAgain? && run[i].pc[t].op == op
    requires t < |run[i + 1].pc| && HoldsMutex(run[i + 1].pc[t])
    requires op !in run[j].log && op in run[j + 1].log
    ensures t < |run[j].pc| && Helping(run[j].pc[t]) && OpensWithin(c, run, i + 1, j, t, op)
    ensures c.node[t] < |run[j].q| && run[j].q[c.node[t]].live
  {
    TakenAt(c, run, i, t);
    TrackRuns(c, run, i + 1, j, run[j], t, op, true);
    LoggedOnTrack(c, run, j, run[j], run[j + 1], t, op, true);
  }

  /** And a thread that took it at the first attempt or by plain locking runs its section beside a closed queue. */
  lemma OtherTakerExecutes(c: Config, run: seq<State>, i: nat, j: nat, t: Tid, op: OpId)
    requires ValidConfig(c) && Run(c, run) && i < j && j + 1 < |run| && t < |c.node|
    requires t < |run[i].pc| && run[i].pc[t].Calling? && !run[i].pc[t].at.TryAgain? && run[i].pc[t].op == op
    requires t < |run[i + 1].pc| && HoldsMutex(run[i + 1].pc[t])
    requires op !in run[j].log && op in run[j + 1].log
    ensures t < |run[j].pc| && run[j].pc[t].Own? && !Helping(run[j].pc[t])
    ensures c.node[t] < |run[j].q| && Quiet(run[j].q[c.node[t]])
  {
    TakenAt(c, run, i, t);
    TrackRuns(c, run, i + 1, j, run[j], t, op, false);
    LoggedOnTrack(c, run, j, run[j], run[j + 1], t, op, false);
  }

  lemma TakenAt(c: Config, run: seq<State>, i: nat, t: Tid)
    requires ValidConfig(c) && Run(c, run) && i + 1 < |run| && t < |run[i].pc| && run[i].pc[t].Calling?
    requires t < |run[i + 1].pc| && HoldsMutex(run[i + 1].pc[t])
    ensures run[i + 1].pc[t] == HLock(run[i].pc[t].op, run[i].pc[t].at.TryAgain?)
  {
    NextTakes(c, run, i, run[i], run[i + 1], t);
  }

  lemma NextTakes(c: Config, run: seq<State>, i: nat, s: State, s': State, t: Tid)
    requires ValidConfig(c) && Run(c, run) && i + 1 < |run| && s == run[i] && s' == run[i + 1]
    requires t < |s.pc| && s.pc[t].Calling? && t < |s'.pc| && HoldsMutex(s'.pc[t])
    ensures s'.pc[t] == HLock(s.pc[t].op, s.pc[t].at.TryAgain?)
  {
    StepOf(c, run, i, s, s');
    var u: Tid :| u < |s.pc| && ThreadStep(c, s, s', u);
    OnlyMover(c, s, s', u);
    if u == t {
      TakesAs(c, s, s', t);
    }
  }

  /** A call on its track is logged by its own thread. */
  lemma LoggedOnTrack(c: Config, run: seq<State>, j: nat, s: State, s': State, t: Tid, op: OpId, helper: bool)
    requires ValidConfig(c) && Run(c, run) && j + 1 < |run| && s == run[j] && s' == run[j + 1]
    requires t < |s.pc| && OnTrack(s.pc[t], op, helper) && op !in s.log && op in s'.log
    ensures s.pc[t].Own? && s.pc[t].helper == helper && c.node[t] < |s.q|
    ensures if helper then s.q[c.node[t]].live else Quiet(s.q[c.node[t]])
  {
    StepOf(c, run, j, s, s');
    RunKeepsInv(c, run, j, s);
    var u: Tid :| u < |s.pc| && ThreadStep(c, s, s', u);
    WhoLogs(c, s, s', u, op);
    TrackIsActive(c, s, t, op, helper);
    if helper {
      assert Phase(c.entries, s.q[c.node[t]], s.pc[t]);
    } else {
      ExecutorAlone(c, s, t);
    }
  }

  lemma TrackIsActive(c: Config, s: State, t: Tid, op: OpId, helper: bool)
    requires ValidConfig(c) && Shape(c, s) && Calls(c, s) && t < |s.pc| && OnTrack(s.pc[t], op, helper)
    ensures op < |s.ops| && s.ops[op].thread == t && s.ops[op].status == Active && !s.ops[op].returned
  {
    assert CallAt(t, s.pc[t], s.ops[op]);
  }
}
