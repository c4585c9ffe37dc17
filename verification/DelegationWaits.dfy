/**
 * What the waiting loops of the protocol are for: writers give way to readers that lost their
 * patience, and a helper closes its queue only when it has found nothing more to do.
 */
module DelegationWaits {
  import opened Prelude
  import opened TantrumQueue
  import opened Delegation
  import opened DelegationInvariant
  import opened DelegationSteps
  import opened DelegationTheorems
  import opened DelegationRoles

  // ---------- the write barrier ----------

  /** A reader has raised the barrier exactly if it has found the lock taken more often than its patience allows. */
  ghost predicate PatienceOk(c: Config, pc: PC) {
    pc.Reader? ==>
      if pc.rp.Raise? then !pc.raised && pc.patience == c.patience
      else pc.raised <==> pc.patience > c.patience
  }

  ghost predicate Patience(c: Config, s: State) {
    forall t :: 0 <= t < |s.pc| ==> PatienceOk(c, s.pc[t])
  }

  lemma PatienceStep(c: Config, s: State, s': State, t: Tid)
    requires ValidConfig(c) && Shape(c, s) && t < |s.pc| && ThreadStep(c, s, s', t) && PatienceOk(c, s.pc[t])
    ensures t < |s'.pc| && PatienceOk(c, s'.pc[t])
  {
    if ReaderStep(c, s, s', t) {
    } else {
      NoReader(c, s, s', t);
    }
  }

  lemma NoReader(c: Config, s: State, s': State, t: Tid)
    requires ValidConfig(c) && Shape(c, s) && t < |s.pc| && ThreadStep(c, s, s', t) && !ReaderStep(c, s, s', t)
    ensures t < |s'.pc| && !s'.pc[t].Reader?
  {
    if FlushStep(c, s, s', t) {
      FlushPoints(c, s, s', t);
    } else if EnqueueStep(c, s, s', t) {
    } else if OwnStep(c, s, s', t) {
    } else if GuardStep(c, s, s', t) {
    } else if CallStep(c, s, s', t) {
    } else {
    }
  }

  lemma NextKeepsPatience(c: Config, s: State, s': State)
    requires ValidConfig(c) && Shape(c, s) && Next(c, s, s') && Patience(c, s)
    ensures Patience(c, s')
  {
    var t: Tid :| t < |s.pc| && ThreadStep(c, s, s', t);
    OnlyMover(c, s, s', t);
    PatienceStep(c, s, s', t);
  }

  lemma {:induction false} RunKeepsPatience(c: Config, run: seq<State>, i: nat, s: State)
    requires ValidConfig(c) && Run(c, run) && i < |run| && s == run[i]
    ensures Patience(c, s)
  {
    if i > 0 {
      var before := run[i - 1];
      RunKeepsPatience(c, run, i - 1, before);
      StepOf(c, run, i - 1, before, s);
      NextKeepsPatience(c, before, s);
    }
  }

  /** So a reader that is out of patience and not in yet keeps the barrier up; one that is patient has not raised it. */
  lemma ImpatienceRaises(c: Config, s: State, r: Tid)
    requires ValidConfig(c) && Reachable(c, s) && r < |s.pc| && s.pc[r].Reader? && !s.pc[r].rp.Reading?
    requires !s.pc[r].rp.Raise?
    ensures HasRaised(s.pc[r]) <==> s.pc[r].patience > c.patience
    ensures s.pc[r].patience > c.patience ==> s.barrier > 0
  {
    var run :| Run(c, run) && run[|run| - 1] == s;
    RunKeepsPatience(c, run, |run| - 1, s);
    assert PatienceOk(c, s.pc[r]);
    if HasRaised(s.pc[r]) {
      CountersExact(c, s, 0);
      assert r in Raisers(s.pc);
    }
  }

  /** Every turn of the waiting loop of rlock uses up patience, unless it raises the barrier or ends the loop. */
  lemma TurnsUsePatience(c: Config, s: State, s': State, r: Tid)
    requires ValidConfig(c) && Shape(c, s) && r < |s.pc| && ThreadStep(c, s, s', r) && r < |s'.pc|
    requires s.pc[r].Reader? && (s.pc[r].rp.Spin? || s.pc[r].rp.Raise?)
    ensures s'.pc[r].Reader?
    ensures s'.pc[r].rp.Raise? ==> s.pc[r].rp.Spin? && s.pc[r].patience == c.patience && !s.pc[r].raised
    ensures s'.pc[r].rp == Spin(false) ==> s'.pc[r].patience == s.pc[r].patience + 1
    ensures s.pc[r].rp.Raise? ==> s'.pc[r].rp == Spin(false) && s'.barrier == s.barrier + 1
    ensures s'.pc[r].rp.Raise? || s'.pc[r].rp.Spin? || s'.pc[r].rp.Arrive?
    ensures s'.pc[r].rp.Arrive? ==> s.pc[r].rp == Spin(true)
  {
    assert ReaderStep(c, s, s', r);
  }

  /**
   * A thread moves the counter of its own group only: up when it arrives, down when it departs or leaves its read
   * section, and at no other step.
   */
  lemma CountsOwnGroup(c: Config, s: State, s': State, r: Tid)
    requires ValidConfig(c) && Shape(c, s) && r < |s.pc| && ThreadStep(c, s, s', r) && s.pc[r].Reader?
    ensures |s'.rc| == |s.rc| && c.tid[r] % c.groups < |s.rc|
    ensures s'.rc[c.tid[r] % c.groups] == s.rc[c.tid[r] % c.groups]
              + (if s.pc[r].rp.Arrive? then 1 else if s.pc[r].rp.Depart? || s.pc[r].rp.Reading? then -1 else 0)
    ensures forall g :: 0 <= g < |s.rc| && g != c.tid[r] % c.groups ==> s'.rc[g] == s.rc[g]
  {
    assert ReaderStep(c, s, s', r);
  }

  /** And while the barrier is up, no call that waits for writers gets past it. */
  lemma {:induction false} WritersWait(c: Config, run: seq<State>, i: nat, j: nat, s: State, t: Tid, op: OpId)
    requires ValidConfig(c) && Run(c, run) && i <= j < |run| && s == run[j] && c.rw
    requires t < |run[i].pc| && run[i].pc[t] == Calling(op, WaitWriters)
    requires forall k :: i <= k < j ==> run[k].barrier > 0
    ensures t < |s.pc| && s.pc[t] == Calling(op, WaitWriters)
    decreases j
  {
    if i < j {
      var before := run[j - 1];
      WritersWait(c, run, i, j - 1, before, t, op);
      StepOf(c, run, j - 1, before, s);
      StillWaits(c, before, s, t, op);
    }
  }

  lemma StillWaits(c: Config, s: State, s': State, t: Tid, op: OpId)
    requires ValidConfig(c) && Shape(c, s) && Next(c, s, s') && c.rw && s.barrier > 0
    requires t < |s.pc| && s.pc[t] == Calling(op, WaitWriters)
    ensures t < |s'.pc| && s'.pc[t] == Calling(op, WaitWriters)
  {
    var u: Tid :| u < |s.pc| && ThreadStep(c, s, s', u);
    OnlyMover(c, s, s', u);
    if u == t {
      assert CallStep(c, s, s', t);
    }
  }

  /**
   * Without a raised barrier a call goes on at once: a plain lock() to the lock, a delegated one to its first
   * attempt.
   */
  lemma WritersGoOn(c: Config, s: State, s': State, t: Tid)
    requires ValidConfig(c) && Reachable(c, s) && t < |s.pc| && ThreadStep(c, s, s', t)
    requires s.pc[t].Calling? && s.pc[t].at.WaitWriters? && (c.rw ==> s.barrier <= 0)
    ensures s.pc[t].op < |s.ops| && t < |s'.pc|
    ensures s'.pc[t] == Calling(s.pc[t].op, if s.ops[s.pc[t].op].direct then LockSlow else TryFirst)
  {
    ReachableInv(c, s);
    assert CallStep(c, s, s', t);
  }

  // ---------- closing ----------

  /** The flush of node n has found no entry it has not executed. */
  ghost predicate NothingLeft(q: Queue, done: nat) {
    q.live && q.counter == done && q.pos == |q.res|
  }

  /** In step k of a run the flush of t loads a counter that has not moved. */
  ghost predicate FoundNothing(c: Config, run: seq<State>, k: nat, t: Tid, done: nat)
    requires t < |c.node|
  {
    && k + 1 < |run| && t < |run[k].pc| && run[k].pc[t].Flush? && run[k].pc[t].fp == Load(done)
    && c.node[t] < |run[k].q| && NothingLeft(run[k].q[c.node[t]], done)
  }

  ghost predicate FoundNothingBefore(c: Config, run: seq<State>, j: nat, t: Tid, done: nat)
    requires t < |c.node|
  {
    exists k: nat :: k < j && FoundNothing(c, run, k, t, done)
  }

  /** t is about to close its queue only after it has found nothing left. */
  lemma {:induction false} ClosesAfter(c: Config, run: seq<State>, j: nat, s: State, t: Tid)
    requires ValidConfig(c) && Run(c, run) && j < |run| && s == run[j] && t < |s.pc| && t < |c.node|
    requires s.pc[t].Flush? && s.pc[t].fp.Close?
    ensures FoundNothingBefore(c, run, j, t, s.pc[t].fp.done)
    decreases j
  {
    if j > 0 {
      var before := run[j - 1];
      StepOf(c, run, j - 1, before, s);
      RunKeepsInv(c, run, j - 1, before);
      ToClose(c, before, s, t);
      if before.pc[t] == s.pc[t] {
        ClosesAfter(c, run, j - 1, before, t);
        var k: nat :| k < j - 1 && FoundNothing(c, run, k, t, s.pc[t].fp.done);
      } else {
        assert FoundNothing(c, run, j - 1, t, s.pc[t].fp.done);
      }
    }
  }

  lemma ToClose(c: Config, s: State, s': State, t: Tid)
    requires ValidConfig(c) && Inv(c, s) && Shape(c, s') && Next(c, s, s') && t < |s.pc|
    requires s'.pc[t].Flush? && s'.pc[t].fp.Close?
    ensures s.pc[t] == s'.pc[t]
      || (s.pc[t].Flush? && s.pc[t].fp == Load(s'.pc[t].fp.done) && NothingLeft(s.q[c.node[t]], s'.pc[t].fp.done))
  {
    var u: Tid :| u < |s.pc| && ThreadStep(c, s, s', u);
    OnlyMover(c, s, s', u);
    if u == t {
      FromLoad(c, s, s', t);
    }
  }

  lemma FromLoad(c: Config, s: State, s': State, t: Tid)
    requires ValidConfig(c) && Shape(c, s) && Queues(c, s) && t < |s.pc| && ThreadStep(c, s, s', t) && t < |s'.pc|
    requires s'.pc[t].Flush? && s'.pc[t].fp.Close?
    ensures s.pc[t].Flush? && s.pc[t].fp == Load(s'.pc[t].fp.done) && NothingLeft(s.q[c.node[t]], s'.pc[t].fp.done)
  {
    IntoClose(c, s, s', t);
    assert Phase(c.entries, s.q[c.node[t]], s.pc[t]);
    AllPassed(c.entries, s.q[c.node[t]], s'.pc[t].fp.done);
  }

  lemma IntoClose(c: Config, s: State, s': State, t: Tid)
    requires ValidConfig(c) && Shape(c, s) && t < |s.pc| && ThreadStep(c, s, s', t) && t < |s'.pc|
    requires s'.pc[t].Flush? && s'.pc[t].fp.Close?
    ensures s.pc[t].Flush? && s.pc[t].fp == Load(s'.pc[t].fp.done) && s.q[c.node[t]].counter == s'.pc[t].fp.done
  {
    if FlushStep(c, s, s', t) {
    } else if OwnStep(c, s, s', t) {
      assert false;
    } else {
      NotIntoFlush(c, s, s', t);
      assert false;
    }
  }

  lemma NotIntoFlush(c: Config, s: State, s': State, t: Tid)
    requires ValidConfig(c) && Shape(c, s) && t < |s.pc| && ThreadStep(c, s, s', t) && t < |s'.pc|
    requires !FlushStep(c, s, s', t) && !OwnStep(c, s, s', t)
    ensures !s'.pc[t].Flush?
  {
    if EnqueueStep(c, s, s', t) {
    } else if GuardStep(c, s, s', t) {
    } else if ReaderStep(c, s, s', t) {
    } else if CallStep(c, s, s', t) {
    } else {
    }
  }

  lemma AllPassed(entries: nat, q: Queue, done: nat)
    requires Wf(entries, q) && q.live && q.counter == done && done == Start(q.res, q.pos)
    ensures q.pos == |q.res|
  {
    StartMonotone(q.res, q.pos, |q.res|);
  }

  /**
   * A queue is closed only because it is full, or because its helper has found no more work: at an earlier moment
   * of this flush everything that had been reserved was executed, and nothing has been executed since.
   */
  lemma ClosedForAReason(c: Config, run: seq<State>, j: nat, n: nat) returns (t: Tid)
    requires ValidConfig(c) && Run(c, run) && j + 1 < |run| && n < c.nodes && n < |run[j].q| && n < |run[j + 1].q|
    requires run[j].q[n].live && !run[j + 1].q[n].live
    ensures t < |run[j].pc| && t < |c.node| && c.node[t] == n && run[j].pc[t].Flush?
    ensures run[j].q[n].counter >= c.entries
      || (run[j].pc[t].fp.Close? && FoundNothingBefore(c, run, j, t, run[j].pc[t].fp.done))
  {
    StepOf(c, run, j, run[j], run[j + 1]);
    RunKeepsInv(c, run, j, run[j]);
    t := WhoCloses(c, run[j], run[j + 1], n);
    if run[j].pc[t].fp.Close? {
      ClosesAfter(c, run, j, run[j], t);
    }
  }

  lemma WhoCloses(c: Config, s: State, s': State, n: nat) returns (t: Tid)
    requires ValidConfig(c) && Shape(c, s) && Shape(c, s') && Next(c, s, s') && n < c.nodes && s.q[n].live
    requires !s'.q[n].live
    ensures t < |s.pc| && c.node[t] == n && s.pc[t].Flush? && (s.pc[t].fp.Close? || s.q[n].counter >= c.entries)
  {
    t :| t < |s.pc| && ThreadStep(c, s, s', t);
    if FlushStep(c, s, s', t) {
    } else {
      StaysLive(c, s, s', t, n);
      assert false;
    }
  }

  lemma StaysLive(c: Config, s: State, s': State, t: Tid, n: nat)
    requires ValidConfig(c) && Shape(c, s) && Shape(c, s') && t < |s.pc| && ThreadStep(c, s, s', t) && n < c.nodes
    requires !FlushStep(c, s, s', t) && s.q[n].live
    ensures s'.q[n].live
  {
    if EnqueueStep(c, s, s', t) {
    } else if OwnStep(c, s, s', t) {
    } else if GuardStep(c, s, s', t) {
    } else if ReaderStep(c, s, s', t) {
    } else if CallStep(c, s, s', t) {
    } else {
    }
  }

  // ---------- one enqueue ----------

  /** The first check of enqueue turns a call away exactly if its entry does not fit behind the counter it loads. */
  lemma CheckedRoom(c: Config, s: State, s': State, t: Tid, retry: nat)
    requires ValidConfig(c) && Reachable(c, s) && t < |s.pc| && ThreadStep(c, s, s', t)
    requires s.pc[t].Calling? && s.pc[t].at == LoadCounter(retry)
    ensures s.pc[t].op < |s.ops| && t < |s'.pc| && c.node[t] < |s.q| && s'.q == s.q && s'.ops == s.ops
    ensures
      var counter := s.q[c.node[t]].counter;
      s'.pc[t] == Calling(s.pc[t].op, if counter + s.ops[s.pc[t].op].req <= c.entries then Reserve(retry, counter)
                                      else TryAgain(retry))
  {
    ReachableInv(c, s);
    assert EnqueueStep(c, s, s', t);
  }

  /** What an addition to the counter does: it accepts a call exactly if its entry fits behind the counter it finds. */
  ghost predicate Added(c: Config, s: State, s': State, t: Tid, o: OpId, retry: nat)
    requires t < |s.pc| && t < |s'.pc| && t < |c.node| && c.node[t] < |s.q| && c.node[t] < |s'.q|
    requires o < |s.ops| && o < |s'.ops|
  {
    var q, q' := s.q[c.node[t]], s'.q[c.node[t]];
    var fits := q.counter + s.ops[o].req <= c.entries;
    && q'.counter == q.counter + s.ops[o].req
    && (s'.ops[o].status.Queued? <==> fits)
    && (if fits then s'.pc[t] == Storing(o, q.counter, |q.res|, false)
        else if q.counter < c.entries then s'.pc[t] == Padding(o, retry, q.counter, |q.res|, false)
        else s'.pc[t] == Calling(o, TryAgain(retry)))
  }

  /** A fetch-and-add always adds; a compare-and-swap adds to the expected value, or reloads the counter. */
  lemma AddedIfRoom(c: Config, s: State, s': State, t: Tid, retry: nat, expected: nat)
    requires ValidConfig(c) && Reachable(c, s) && t < |s.pc| && ThreadStep(c, s, s', t)
    requires s.pc[t].Calling? && s.pc[t].at == Reserve(retry, expected)
    ensures s.pc[t].op < |s.ops| && |s'.ops| == |s.ops| && t < |s'.pc| && t < |c.node|
    ensures c.node[t] < |s.q| && c.node[t] < |s'.q|
    ensures
      var n, o := c.node[t], s.pc[t].op;
      || (Added(c, s, s', t, o, retry) && (c.cas ==> s.q[n].counter == expected))
      || (c.cas && s'.q == s.q && s'.ops == s.ops && s'.pc[t] == Calling(o, Reserve(retry, s.q[n].counter)))
  {
    ReachableInv(c, s);
    AdderIsActive(c, s, t);
    AddEffect(c, s, s', t, retry, expected);
  }

  lemma AddEffect(c: Config, s: State, s': State, t: Tid, retry: nat, expected: nat)
    requires ValidConfig(c) && Shape(c, s) && t < |s.pc| && ThreadStep(c, s, s', t)
    requires s.pc[t].Calling? && s.pc[t].at == Reserve(retry, expected)
    requires s.pc[t].op < |s.ops| && s.ops[s.pc[t].op].status == Active
    ensures |s'.ops| == |s.ops| && t < |s'.pc| && c.node[t] < |s'.q|
    ensures
      var n, o := c.node[t], s.pc[t].op;
      || (Added(c, s, s', t, o, retry) && (c.cas ==> s.q[n].counter == expected))
      || (c.cas && s'.q == s.q && s'.ops == s.ops && s'.pc[t] == Calling(o, Reserve(retry, s.q[n].counter)))
  {
    assert EnqueueStep(c, s, s', t);
  }

  lemma AdderIsActive(c: Config, s: State, t: Tid)
    requires ValidConfig(c) && Shape(c, s) && Calls(c, s) && t < |s.pc| && s.pc[t].Calling?
    ensures s.pc[t].op < |s.ops| && s.ops[s.pc[t].op].status == Active
  {
    assert CallAt(t, s.pc[t], s.ops[s.pc[t].op]);
  }

  /**
   * A delegated call that finds room and is not disturbed returns after four steps, its entry published in its
   * slots.
   */
  lemma UndisturbedEnqueue(c: Config, s0: State, s1: State, s2: State, s3: State, s4: State, t: Tid, retry: nat)
    requires ValidConfig(c) && Reachable(c, s0) && t < |s0.pc| && !c.cas
    requires s0.pc[t].Calling? && s0.pc[t].at == LoadCounter(retry)
    requires Shape(c, s0) && Shape(c, s1) && Shape(c, s2) && Shape(c, s3) && Shape(c, s4)
    requires ThreadStep(c, s0, s1, t) && ThreadStep(c, s1, s2, t) && ThreadStep(c, s2, s3, t)
    requires ThreadStep(c, s3, s4, t)
    requires s0.pc[t].op < |s0.ops| && s0.q[c.node[t]].counter + s0.ops[s0.pc[t].op].req <= c.entries
    ensures Handed(s0, s4, t, s0.pc[t].op, c.node[t])
  {
    StepReaches(c, s0, s1, t);
    CheckedRoom(c, s0, s1, t, retry);
    AddedIfRoom(c, s1, s2, t, retry, s0.q[c.node[t]].counter);
    StatusAfterAdding(c, s1, s2, t);
    Stores(c, s2, s3, t);
    Publishes(c, s3, s4, t);
  }

  /** From s to s' the call op of thread t has been handed over: it has returned, and its entry can be seen. */
  ghost predicate Handed(s: State, s': State, t: Tid, op: OpId, n: nat)
    requires n < |s.q| && op < |s.ops|
  {
    && t < |s'.pc| && s'.pc[t].Idle?
    && op < |s'.ops| && s'.ops[op].returned && s'.ops[op].status == Queued(|s.q[n].res|)
    && n < |s'.q| && s'.q[n].counter == s.q[n].counter + s.ops[op].req
    && s.q[n].counter < |s'.q[n].fn| && s'.q[n].fn[s.q[n].counter] == Wrapper
  }

  lemma StepReaches(c: Config, s: State, s': State, t: Tid)
    requires ValidConfig(c) && Reachable(c, s) && Shape(c, s) && Shape(c, s') && t < |s.pc| && ThreadStep(c, s, s', t)
    ensures Reachable(c, s')
  {
    assert Next(c, s, s');
    NextReaches(c, s, s');
  }

  lemma StatusAfterAdding(c: Config, s: State, s': State, t: Tid)
    requires ValidConfig(c) && Shape(c, s) && t < |s.pc| && ThreadStep(c, s, s', t)
    requires s.pc[t].Calling? && s.pc[t].at.Reserve? && t < |s'.pc| && s'.pc[t].Storing? && s.pc[t].op < |s.ops|
    ensures s.pc[t].op < |s'.ops| && s'.ops[s.pc[t].op].status == Queued(|s.q[c.node[t]].res|)
  {
    assert EnqueueStep(c, s, s', t);
  }

  lemma Stores(c: Config, s: State, s': State, t: Tid)
    requires ValidConfig(c) && Shape(c, s) && t < |s.pc| && ThreadStep(c, s, s', t) && s.pc[t].Storing?
    requires !s.pc[t].written
    ensures t < |s'.pc| && s'.pc[t] == Storing(s.pc[t].op, s.pc[t].index, s.pc[t].k, true) && s'.ops == s.ops
    ensures |s'.q| == |s.q| && s'.q[c.node[t]].counter == s.q[c.node[t]].counter
  {
    assert EnqueueStep(c, s, s', t);
  }

  lemma Publishes(c: Config, s: State, s': State, t: Tid)
    requires ValidConfig(c) && Shape(c, s) && t < |s.pc| && ThreadStep(c, s, s', t) && s.pc[t].Storing?
    requires s.pc[t].written
    requires s.pc[t].op < |s.ops|
    ensures t < |s'.pc| && s'.pc[t].Idle? && |s'.ops| == |s.ops| && s'.ops[s.pc[t].op].returned
    ensures s'.ops[s.pc[t].op].status == s.ops[s.pc[t].op].status
    ensures |s'.q| == |s.q| && s'.q[c.node[t]].counter == s.q[c.node[t]].counter
    ensures s.pc[t].index < |s'.q[c.node[t]].fn| && s'.q[c.node[t]].fn[s.pc[t].index] == Wrapper
  {
    assert EnqueueStep(c, s, s', t);
  }
}
