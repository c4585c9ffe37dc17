/** What the delegation locks promise, for every reachable state and every run. */
module DelegationTheorems {
  import opened Prelude
  import opened TantrumQueue
  import opened Delegation
  import opened DelegationInvariant
  import opened DelegationQueues
  import opened DelegationSteps

  // ---------- exclusion ----------

  /** No two sections ever overlap, whichever nodes and queues they come from. */
  lemma SectionsExclusive(c: Config, s: State, t: Tid, u: Tid)
    requires ValidConfig(c) && Reachable(c, s)
    requires t < |s.pc| && u < |s.pc| && InSection(s.pc[t]) && InSection(s.pc[u])
    ensures t == u
    ensures s.mutex[c.node[t]] == Some(t)
    ensures c.hier ==> s.global == Some(t)
  {
    ReachableInv(c, s);
    GuardUnique(c, s, t, u);
  }

  /** No reader is inside its section while a section runs. */
  lemma ReadersExcluded(c: Config, s: State, t: Tid, r: Tid)
    requires ValidConfig(c) && Reachable(c, s)
    requires t < |s.pc| && r < |s.pc| && InSection(s.pc[t])
    ensures !InReadSection(s.pc[r])
  {
    ScannedExcludes(c, s, t, r);
  }

  /** A writer that has found every group empty once keeps readers out until it lets the lock go, section or not. */
  lemma ScannedExcludes(c: Config, s: State, t: Tid, r: Tid)
    requires ValidConfig(c) && Reachable(c, s)
    requires t < |s.pc| && r < |s.pc| && Scanned(c, s.pc[t]) == c.groups
    ensures !Admitted(s.pc[r])
  {
    ReachableInv(c, s);
    assert Group(c, r) < c.groups;
    GroupsPassed(c, s, t, r);
  }

  lemma GroupsPassed(c: Config, s: State, t: Tid, r: Tid)
    requires ValidConfig(c) && Shape(c, s) && Readers(c, s)
    requires t < |s.pc| && r < |s.pc| && Group(c, r) < Scanned(c, s.pc[t])
    ensures !Admitted(s.pc[r])
  {
  }

  /** The reader counters and the write barrier count exactly the threads they stand for. */
  lemma CountersExact(c: Config, s: State, g: nat)
    requires ValidConfig(c) && Reachable(c, s) && g < c.groups
    ensures s.rc[g] == |Members(c, s.pc, g)|
    ensures s.barrier == |Raisers(s.pc)|
  {
    ReachableInv(c, s);
  }

  /** At most one delegation queue is in use, and its helper holds the node's mutex and the global lock. */
  lemma OneQueueOpen(c: Config, s: State, m: nat, n: nat)
    requires ValidConfig(c) && Reachable(c, s)
    requires m < c.nodes && n < c.nodes && !Quiet(s.q[m]) && !Quiet(s.q[n])
    ensures m == n
    ensures s.mutex[m].Some? && s.mutex[m].value < |s.pc| && Helping(s.pc[s.mutex[m].value])
    ensures c.hier ==> s.global == s.mutex[m]
  {
    ReachableInv(c, s);
    assert Helped(c, s, m) && Helped(c, s, n);
    GuardUnique(c, s, s.mutex[m].value, s.mutex[n].value);
  }

  // ---------- exactly once ----------

  /** No section is executed twice. */
  lemma ExecutedOnce(c: Config, s: State, i: nat, j: nat)
    requires ValidConfig(c) && Reachable(c, s) && i < |s.log| && j < |s.log| && s.log[i] == s.log[j]
    ensures i == j
  {
    ReachableInv(c, s);
    assert s.ops[s.log[i]].status == Logged(i) && s.ops[s.log[j]].status == Logged(j);
  }

  /** A call that has returned is in the log, or waits in the queue its node's helper is flushing, and not both. */
  lemma ReturnedIsExecutedOrHelped(c: Config, s: State, a: OpId)
    requires ValidConfig(c) && Reachable(c, s) && a < |s.ops| && s.ops[a].returned
    ensures s.ops[a].thread < |c.node| && c.node[s.ops[a].thread] < |s.mutex|
    ensures
      if a in s.log then true
      else
        var n := c.node[s.ops[a].thread];
        && s.mutex[n].Some? && s.mutex[n].value < |s.pc| && Helping(s.pc[s.mutex[n].value])
        && exists k :: s.q[n].pos <= k < |s.q[n].res| && s.q[n].res[k].op == Some(a)
    ensures a in s.log ==>
      forall n, k :: 0 <= n < c.nodes && s.q[n].pos <= k < |s.q[n].res| ==> s.q[n].res[k].op != Some(a)
  {
    ReachableInv(c, s);
    if a in s.log {
      LoggedIsNotQueued(c, s, a);
    } else {
      var n := c.node[s.ops[a].thread];
      assert s.ops[a].status.Queued?;
      assert InQueue(s.q[n], s.ops[a].status.k, a, s.ops[a].req);
      assert Helped(c, s, n);
    }
  }

  lemma LoggedIsNotQueued(c: Config, s: State, a: OpId)
    requires ValidConfig(c) && Shape(c, s) && Calls(c, s) && Places(c, s) && a in s.log
    ensures forall n, k :: 0 <= n < c.nodes && s.q[n].pos <= k < |s.q[n].res| ==> s.q[n].res[k].op != Some(a)
  {
    var p :| 0 <= p < |s.log| && s.log[p] == a;
    forall n, k | 0 <= n < c.nodes && s.q[n].pos <= k < |s.q[n].res| ensures s.q[n].res[k].op != Some(a) {
      assert s.q[n].res[k].op == Some(a) ==> IsQueued(c, s, n, k, a);
    }
  }

  /** Once the helper of a node has left its flush, everything its node delegated and returned is executed. */
  lemma FlushedIsExecuted(c: Config, s: State, a: OpId)
    requires ValidConfig(c) && Reachable(c, s) && a < |s.ops| && s.ops[a].returned
    requires s.ops[a].thread < |c.node| && c.node[s.ops[a].thread] < c.nodes && !Helped(c, s, c.node[s.ops[a].thread])
    ensures a in s.log
  {
    ReturnedIsExecutedOrHelped(c, s, a);
  }

  /** While a call is still with its own thread, nobody else has executed it or will. */
  lemma FreshIsUnexecuted(c: Config, s: State, t: Tid)
    requires ValidConfig(c) && Reachable(c, s) && t < |s.pc| && Fresh(s.pc[t])
    ensures s.pc[t].op !in s.log
    ensures forall n, k :: 0 <= n < c.nodes && s.q[n].pos <= k < |s.q[n].res| ==> s.q[n].res[k].op != Some(s.pc[t].op)
  {
    ReachableInv(c, s);
    FreshPlaces(c, s, t);
  }

  lemma FreshPlaces(c: Config, s: State, t: Tid)
    requires ValidConfig(c) && Shape(c, s) && Calls(c, s) && Places(c, s) && t < |s.pc| && Fresh(s.pc[t])
    ensures s.pc[t].op !in s.log
    ensures forall n, k :: 0 <= n < c.nodes && s.q[n].pos <= k < |s.q[n].res| ==> s.q[n].res[k].op != Some(s.pc[t].op)
  {
    var o := s.pc[t].op;
    assert s.ops[o].status == Active;
    forall n, k | 0 <= n < c.nodes && s.q[n].pos <= k < |s.q[n].res| ensures s.q[n].res[k].op != Some(o) {
      assert s.q[n].res[k].op == Some(o) ==> IsQueued(c, s, n, k, o);
    }
  }

  // ---------- order ----------

  /** In the log, every call comes after all the calls that had returned when it began. */
  lemma LogRespectsReturns(c: Config, s: State, p: nat, a: OpId)
    requires ValidConfig(c) && Reachable(c, s) && p < |s.log|
    requires s.log[p] < |s.ops| && a in s.ops[s.log[p]].before
    ensures exists q :: 0 <= q < p && s.log[q] == a
  {
    ReachableInv(c, s);
    assert IsBehind(c, s, a, s.log[p]);
    assert s.log[s.ops[a].status.p] == a;
  }

  /** The section a thread is running: its own, or the operation it found in the queue. */
  function Running(c: Config, s: State, t: Tid): OpId
    requires t < |s.pc| && InSection(s.pc[t]) && |c.node| == |s.pc| && c.node[t] < |s.q|
    requires s.pc[t].Flush? ==> s.pc[t].fp.index < |s.q[c.node[t]].cells|
  {
    if s.pc[t].Own? then s.pc[t].op else s.q[c.node[t]].cells[s.pc[t].fp.index].op
  }

  /** When a section starts, the sections of all calls that had returned before it was called have finished. */
  lemma RunningAfterReturned(c: Config, s: State, t: Tid, a: OpId)
    requires ValidConfig(c) && Reachable(c, s) && t < |s.pc| && InSection(s.pc[t])
    ensures |c.node| == |s.pc| && c.node[t] < |s.q|
    ensures s.pc[t].Flush? ==> s.pc[t].fp.index < |s.q[c.node[t]].cells|
    ensures Running(c, s, t) < |s.ops| && Running(c, s, t) !in s.log
    ensures a in s.ops[Running(c, s, t)].before ==> a in s.log
  {
    ReachableInv(c, s);
    var b := RunningIs(c, s, t);
    if a in s.ops[b].before {
      BeforeRunning(c, s, t, a, b);
    }
  }

  /** The running call has not been logged: it is the thread's own, or the next in its queue. */
  lemma RunningIs(c: Config, s: State, t: Tid) returns (b: OpId)
    requires ValidConfig(c) && Inv(c, s) && t < |s.pc| && InSection(s.pc[t])
    ensures s.pc[t].Flush? ==> s.pc[t].fp.index < |s.q[c.node[t]].cells|
    ensures b == Running(c, s, t) && b < |s.ops| && b !in s.log
    ensures if s.pc[t].Flush? then IsQueued(c, s, c.node[t], s.q[c.node[t]].pos, b)
        else s.pc[t].Own? && Fresh(s.pc[t]) && b == s.pc[t].op
  {
    b := s.pc[t].op;
    if s.pc[t].Flush? {
      EntryHasReturnedHere(c, s, t);
      b := s.q[c.node[t]].cells[s.pc[t].fp.index].op;
    }
  }

  lemma BeforeRunning(c: Config, s: State, t: Tid, a: OpId, b: OpId)
    requires ValidConfig(c) && Shape(c, s) && Calls(c, s) && Places(c, s) && Order(c, s) && Cleared(c, s)
    requires t < |s.pc| && b < |s.ops| && a in s.ops[b].before
    requires if s.pc[t].Flush? then IsQueued(c, s, c.node[t], s.q[c.node[t]].pos, b)
        else s.pc[t].Own? && Fresh(s.pc[t]) && b == s.pc[t].op
    ensures a in s.log
  {
    assert IsBehind(c, s, a, b);
    if s.pc[t].Own? {
      assert AreLogged(s.ops, s.ops[b].before);
    } else if s.ops[a].status.Queued? {
      assert false;
    }
  }

  lemma EntryHasReturnedHere(c: Config, s: State, t: Tid)
    requires ValidConfig(c) && Inv(c, s) && t < |s.pc| && s.pc[t].Flush? && InSection(s.pc[t])
    ensures s.pc[t].fp.index < |s.q[c.node[t]].cells|
    ensures IsQueued(c, s, c.node[t], s.q[c.node[t]].pos, s.q[c.node[t]].cells[s.pc[t].fp.index].op)
  {
    EntryFacts(c, s, t);
  }

  /** Nothing that happened is forgotten: executed sections, call records and returns. */
  ghost predicate Grows(s: State, s': State) {
    && s.log <= s'.log
    && |s.ops| <= |s'.ops|
    && (forall o :: 0 <= o < |s.ops| ==>
          s'.ops[o].before == s.ops[o].before && (s.ops[o].returned ==> s'.ops[o].returned))
  }

  /** Calls that begin in a step record all calls that have returned. */
  ghost predicate RecordsReturns(s: State, s': State) {
    forall o :: |s.ops| <= o < |s'.ops| ==> s'.ops[o].before == Returned(s.ops)
  }

  lemma StepGrows(c: Config, s: State, s': State, t: Tid)
    requires ValidConfig(c) && Shape(c, s) && t < |s.pc| && ThreadStep(c, s, s', t)
    ensures Grows(s, s') && RecordsReturns(s, s')
  {
    if EnqueueStep(c, s, s', t) {
      EnqueueGrows(c, s, s', t);
    } else if FlushStep(c, s, s', t) {
      FlushGrows(c, s, s', t);
    } else if CallStep(c, s, s', t) {
    } else if OwnStep(c, s, s', t) {
    } else if GuardStep(c, s, s', t) {
    } else if ReaderStep(c, s, s', t) {
    } else {
      var req: nat, direct: bool :| StartCall(c, s, s', t, req, direct);
    }
  }

  lemma EnqueueGrows(c: Config, s: State, s': State, t: Tid)
    requires ValidConfig(c) && Shape(c, s) && t < |s.pc| && EnqueueStep(c, s, s', t)
    ensures Grows(s, s') && RecordsReturns(s, s')
  {
  }

  lemma FlushGrows(c: Config, s: State, s': State, t: Tid)
    requires ValidConfig(c) && Shape(c, s) && t < |s.pc| && FlushStep(c, s, s', t)
    ensures Grows(s, s') && RecordsReturns(s, s')
  {
  }

  lemma RunStepGrows(c: Config, run: seq<State>, i: nat, s: State, s': State)
    requires ValidConfig(c) && Run(c, run) && i + 1 < |run| && s == run[i] && s' == run[i + 1]
    ensures Grows(s, s') && RecordsReturns(s, s')
  {
    StepOf(c, run, i, s, s');
    var t: Tid :| t < |s.pc| && ThreadStep(c, s, s', t);
    StepGrows(c, s, s', t);
  }

  lemma GrowsTransitive(s: State, s1: State, s2: State)
    requires Grows(s, s1) && Grows(s1, s2)
    ensures Grows(s, s2)
  {
  }

  lemma {:induction false} RunGrows(c: Config, run: seq<State>, i: nat, j: nat)
    requires ValidConfig(c) && Run(c, run) && i <= j < |run|
    ensures Grows(run[i], run[j])
    decreases j - i
  {
    if i < j {
      RunGrows(c, run, i, j - 1);
      RunStepGrows(c, run, j - 1, run[j - 1], run[j]);
      GrowsTransitive(run[i], run[j - 1], run[j]);
    }
  }

  /** A call that begins after another has returned records it as a predecessor. */
  lemma {:induction false} BeganAfter(c: Config, run: seq<State>, i: nat, j: nat, a: OpId, b: OpId)
    requires ValidConfig(c) && Run(c, run) && i <= j < |run|
    requires a < |run[i].ops| && run[i].ops[a].returned
    requires |run[i].ops| <= b < |run[j].ops|
    ensures a in run[j].ops[b].before
    decreases j - i
  {
    var s := run[j - 1];
    RunStepGrows(c, run, j - 1, s, run[j]);
    if b < |s.ops| {
      BeganAfter(c, run, i, j - 1, a, b);
      StillBefore(s, run[j], a, b);
    } else {
      RunGrows(c, run, i, j - 1);
      JustBegan(run[i], s, run[j], a, b);
    }
  }

  lemma StillBefore(s: State, s': State, a: OpId, b: OpId)
    requires Grows(s, s') && b < |s.ops| && a in s.ops[b].before
    ensures a in s'.ops[b].before
  {
  }

  lemma JustBegan(s0: State, s: State, s': State, a: OpId, b: OpId)
    requires Grows(s0, s) && RecordsReturns(s, s') && a < |s0.ops| && s0.ops[a].returned && |s.ops| <= b < |s'.ops|
    ensures a in s'.ops[b].before
  {
    assert a in Returned(s.ops);
  }

  lemma PrefixIsRun(c: Config, run: seq<State>, j: nat)
    requires ValidConfig(c) && Run(c, run) && j < |run|
    ensures Reachable(c, run[j])
  {
    var prefix := run[..j + 1];
    forall k | 0 <= k < |prefix| - 1 ensures NextAt(c, prefix, k) {
      assert NextAt(c, run, k);
    }
    assert Run(c, prefix) && prefix[|prefix| - 1] == run[j];
  }

  /**
   * Real-time order of delegation. In any run: if delegate(a) has returned in state i and
   * delegate(b) begins later, then wherever b stands in the log of a later state j, a stands before it.
   */
  lemma RealTimeOrder(c: Config, run: seq<State>, i: nat, j: nat, a: OpId, b: OpId, p: nat)
    requires ValidConfig(c) && Run(c, run) && i <= j < |run|
    requires a < |run[i].ops| && run[i].ops[a].returned
    requires |run[i].ops| <= b < |run[j].ops|
    requires p < |run[j].log| && run[j].log[p] == b
    ensures exists q :: 0 <= q < p && run[j].log[q] == a
  {
    BeganAfter(c, run, i, j, a, b);
    PrefixIsRun(c, run, j);
    LogRespectsReturns(c, run[j], p, a);
  }

  // ---------- the queue between and during open periods ----------

  /** Between two open periods the queue is closed and empty, and no enqueuer is still writing into it. */
  lemma QuietBetweenPeriods(c: Config, s: State, n: nat)
    requires ValidConfig(c) && Reachable(c, s) && n < c.nodes && !Helped(c, s, n)
    ensures s.q[n].counter >= c.entries
    ensures |s.q[n].fn| == c.entries && forall i :: 0 <= i < c.entries ==> s.q[n].fn[i] == Null
    ensures forall t :: 0 <= t < |s.pc| && c.node[t] == n ==> !Writing(s.pc[t])
  {
    ReachableInv(c, s);
    assert Quiet(s.q[n]);
  }

  /**
   * An enqueuer that holds a reservation, whatever it saw before its fetch-and-add, is in the present
   * period: a helper is at work, has not passed the entry, and once the queue is closed will execute it.
   */
  lemma ReservationIsCovered(c: Config, s: State, t: Tid)
    requires ValidConfig(c) && Reachable(c, s) && t < |s.pc| && Writing(s.pc[t])
    ensures
      var n := c.node[t];
      && s.mutex[n].Some? && s.mutex[n].value < |s.pc| && Helping(s.pc[s.mutex[n].value])
      && s.q[n].pos <= s.pc[t].k < |s.q[n].res|
      && (!s.q[n].live ==> s.pc[t].k < s.q[n].lim)
  {
    ReachableInv(c, s);
    ReservationHelped(c, s, t);
  }

  lemma ReservationHelped(c: Config, s: State, t: Tid)
    requires ValidConfig(c) && Shape(c, s) && Locks(c, s) && Queues(c, s) && Writers(c, s) && t < |s.pc|
    requires Writing(s.pc[t])
    ensures Helped(c, s, c.node[t])
    ensures s.q[c.node[t]].pos <= s.pc[t].k < |s.q[c.node[t]].res|
    ensures !s.q[c.node[t]].live ==> s.pc[t].k < s.q[c.node[t]].lim
  {
    var n := c.node[t];
    assert Helped(c, s, n);
    assert Phase(c.entries, s.q[n], s.pc[s.mutex[n].value]);
  }

  /** Whenever flush waits at an empty slot, a thread is in flight that will fill exactly this slot. */
  lemma AwaitedSlotHasWriter(c: Config, s: State, t: Tid) returns (w: Tid)
    requires ValidConfig(c) && Reachable(c, s) && t < |s.pc| && s.pc[t].Flush? && s.pc[t].fp.Poll?
    requires s.pc[t].fp.index < |s.q[c.node[t]].fn| && s.q[c.node[t]].fn[s.pc[t].fp.index] == Null
    ensures w < |s.pc| && w != t && c.node[w] == c.node[t] && Writing(s.pc[w]) && s.pc[w].index == s.pc[t].fp.index
  {
    ReachableInv(c, s);
    var q := s.q[c.node[t]];
    assert Phase(c.entries, q, s.pc[t]);
    assert Follows(q.res, q.pos) && Stored(q.fn, q.cells, q.res[q.pos]);
    w := q.res[q.pos].owner;
  }

  /** The slots an enqueuer in flight writes to are inside the buffer and nobody else's. */
  lemma WritersDisjoint(c: Config, s: State, t: Tid, u: Tid, i: nat)
    requires ValidConfig(c) && Reachable(c, s) && t < |s.pc| && u < |s.pc| && t != u && c.node[t] == c.node[u]
    requires s.pc[t].Storing? && s.pc[u].Storing? && s.pc[t].op < |s.ops| && s.pc[u].op < |s.ops|
    requires s.pc[t].index <= i < s.pc[t].index + s.ops[s.pc[t].op].req
    ensures i < c.entries
    ensures !(s.pc[u].index <= i < s.pc[u].index + s.ops[s.pc[u].op].req)
  {
    StoringPlace(c, s, t);
    StoringPlace(c, s, u);
  }

  /** What a thread stores is the reservation it made, and the reservations do not overlap. */
  lemma StoringPlace(c: Config, s: State, t: Tid)
    requires ValidConfig(c) && Reachable(c, s) && t < |s.pc| && s.pc[t].Storing? && s.pc[t].op < |s.ops|
    ensures
      var q := s.q[c.node[t]];
      var k := s.pc[t].k;
      && k < |q.res| && q.res[k].owner == t && q.res[k].index == s.pc[t].index && q.res[k].size == s.ops[s.pc[t].op].req
      && (forall j :: 0 <= j < |q.res| ==> q.res[j].index + q.res[j].size <= c.entries)
      && (forall i, j :: 0 <= i < j < |q.res| ==> q.res[i].index + q.res[i].size <= q.res[j].index)
  {
    ReachableInv(c, s);
    PlaceOf(c, s, t);
  }

  lemma PlaceOf(c: Config, s: State, t: Tid)
    requires ValidConfig(c) && Shape(c, s) && Writers(c, s) && Calls(c, s) && Places(c, s)
    requires t < |s.pc| && s.pc[t].Storing?
    ensures
      var q := s.q[c.node[t]];
      var k := s.pc[t].k;
      && k < |q.res| && q.res[k].owner == t && q.res[k].index == s.pc[t].index && q.res[k].size == s.ops[s.pc[t].op].req
  {
    assert InQueue(s.q[c.node[t]], s.pc[t].k, s.pc[t].op, s.ops[s.pc[t].op].req);
  }

  /** In an open period the reservations tile the used slots, and only the last can be padding. */
  lemma ReservationsTile(c: Config, s: State, n: nat, i: nat) returns (k: nat)
    requires ValidConfig(c) && Reachable(c, s) && n < c.nodes && s.q[n].live
    requires i < Min(s.q[n].counter, c.entries)
    ensures k < |s.q[n].res|
    ensures forall j :: 0 <= j < |s.q[n].res| ==>
        (s.q[n].res[j].index <= i < s.q[n].res[j].index + s.q[n].res[j].size <==> j == k)
    ensures forall j :: 0 <= j < |s.q[n].res| && s.q[n].res[j].op.None? ==> j == |s.q[n].res| - 1
  {
    ReachableInv(c, s);
    var res := s.q[n].res;
    k := SlotCovered(res, |res|, i);
    forall j | 0 <= j < |res| && res[j].index <= i < res[j].index + res[j].size ensures j == k {
      ReservationsDisjoint(res, j, k, i);
    }
  }

  /** One open period makes at most ENTRIES reservations, of which the flush has passed pos. */
  lemma PeriodReservations(c: Config, s: State, n: nat)
    requires ValidConfig(c) && Reachable(c, s) && n < c.nodes
    ensures s.q[n].pos <= |s.q[n].res| <= c.entries
  {
    ReachableInv(c, s);
    assert Wf(c.entries, s.q[n]);
    StartAtLeast(s.q[n].res, |s.q[n].res|);
  }
}
