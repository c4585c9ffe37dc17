/** The counter of a delegation queue never runs far past ENTRIES, so 32 bits are enough for it. */
module DelegationCounter {
  import opened Prelude
  import opened TantrumQueue
  import opened Delegation
  import opened DelegationInvariant
  import opened DelegationSteps

  const UNSIGNED_VALUES: nat := 0x1_0000_0000

  function Team(c: Config, n: nat): set<Tid> {
    set t: Tid | t < |c.node| && c.node[t] == n
  }

  predicate AboutToAdd(pc: PC) {
    pc.Calling? && pc.at.Reserve?
  }

  /** The threads of node n that have passed the check of the counter but not yet added to it. */
  function Pending(c: Config, pc: seq<PC>, n: nat): set<Tid>
    requires |pc| == |c.node|
  {
    set t: Tid | t < |pc| && c.node[t] == n && AboutToAdd(pc[t])
  }

  /** Even if all pending additions happen, the counter stays within reach of ENTRIES. */
  ghost predicate Within(c: Config, s: State, n: nat)
    requires ValidConfig(c) && Shape(c, s) && n < c.nodes
  {
    Team(c, n) != {} && s.q[n].counter >= c.entries ==>
      s.q[n].counter + c.maxReq * |Pending(c, s.pc, n)| <= c.entries + c.maxReq * (|Team(c, n)| - 1)
  }

  ghost predicate Counters(c: Config, s: State)
    requires ValidConfig(c) && Shape(c, s)
  {
    forall n :: 0 <= n < c.nodes ==> Within(c, s, n)
  }

  lemma Scale(m: nat, a: int, b: int)
    requires a <= b
    ensures m * a <= m * b
  {
  }

  /** A thread of the node that is not pending leaves room for one more addition. */
  lemma PendingBound(c: Config, pc: seq<PC>, n: nat, t: Tid)
    requires |pc| == |c.node| && t < |pc| && c.node[t] == n && !AboutToAdd(pc[t])
    ensures |Pending(c, pc, n)| <= |Team(c, n)| - 1
  {
    SubsetSize(Pending(c, pc, n), Team(c, n) - {t});
    SizeWithout(Team(c, n), Team(c, n) - {t}, t);
  }

  /** A step that adds nothing to the counters and makes no thread pending. */
  lemma CountersFrame(c: Config, s: State, s': State, t: Tid)
    requires ValidConfig(c) && Shape(c, s) && Shape(c, s') && t < |s.pc| && Counters(c, s)
    requires s'.pc == s.pc[t := s'.pc[t]] && !AboutToAdd(s'.pc[t])
    requires forall n :: 0 <= n < c.nodes ==> s'.q[n].counter == s.q[n].counter || s'.q[n].counter == 0
    ensures Counters(c, s')
  {
    forall n | 0 <= n < c.nodes ensures Within(c, s', n) {
      assert Within(c, s, n);
      SubsetSize(Pending(c, s'.pc, n), Pending(c, s.pc, n));
      Scale(c.maxReq, |Pending(c, s'.pc, n)|, |Pending(c, s.pc, n)|);
    }
  }

  /** Closing: the flushing thread is not pending. */
  lemma CountersClosed(c: Config, s: State, s': State, t: Tid)
    requires ValidConfig(c) && Shape(c, s) && Shape(c, s') && t < |s.pc| && Counters(c, s)
    requires s'.pc == s.pc[t := s'.pc[t]] && !AboutToAdd(s'.pc[t])
    requires s'.q == s.q[c.node[t] := s'.q[c.node[t]]] && s'.q[c.node[t]].counter == c.entries
    ensures Counters(c, s')
  {
    forall n | 0 <= n < c.nodes ensures Within(c, s', n) {
      assert Within(c, s, n);
      SubsetSize(Pending(c, s'.pc, n), Pending(c, s.pc, n));
      Scale(c.maxReq, |Pending(c, s'.pc, n)|, |Pending(c, s.pc, n)|);
      if n == c.node[t] {
        PendingBound(c, s'.pc, n, t);
        Scale(c.maxReq, |Pending(c, s'.pc, n)|, |Team(c, n)| - 1);
      }
    }
  }

  /** Passing the check: the counter is below ENTRIES at that moment. */
  lemma CountersChecked(c: Config, s: State, s': State, t: Tid)
    requires ValidConfig(c) && Shape(c, s) && Shape(c, s') && t < |s.pc| && Counters(c, s)
    requires s'.pc == s.pc[t := s'.pc[t]] && s'.q == s.q
    requires AboutToAdd(s'.pc[t]) && !AboutToAdd(s.pc[t]) ==> s.q[c.node[t]].counter < c.entries
    ensures Counters(c, s')
  {
    forall n | 0 <= n < c.nodes ensures Within(c, s', n) {
      assert Within(c, s, n);
      if s.q[n].counter >= c.entries {
        SubsetSize(Pending(c, s'.pc, n), Pending(c, s.pc, n));
        Scale(c.maxReq, |Pending(c, s'.pc, n)|, |Pending(c, s.pc, n)|);
      }
    }
  }

  /** The addition: it uses up the adding thread's own room. */
  lemma CountersAdded(c: Config, s: State, s': State, t: Tid, req: nat)
    requires ValidConfig(c) && Shape(c, s) && Shape(c, s') && t < |s.pc| && Locks(c, s) && Queues(c, s)
    requires Counters(c, s)
    requires AboutToAdd(s.pc[t]) && s'.pc == s.pc[t := s'.pc[t]] && !AboutToAdd(s'.pc[t]) && 1 <= req <= c.maxReq
    requires s'.q == s.q[c.node[t] := s'.q[c.node[t]]] && s'.q[c.node[t]].counter == s.q[c.node[t]].counter + req
    ensures Counters(c, s')
  {
    var m := c.node[t];
    forall n | 0 <= n < c.nodes ensures Within(c, s', n) {
      assert Within(c, s, n);
      if n == m {
        SizeWithout(Pending(c, s.pc, n), Pending(c, s'.pc, n), t);
        AdditionFits(c, s, t, req, |Pending(c, s.pc, n)|);
      } else {
        assert Pending(c, s'.pc, n) == Pending(c, s.pc, n);
      }
    }
  }

  lemma AdditionFits(c: Config, s: State, t: Tid, req: nat, pending: nat)
    requires ValidConfig(c) && Shape(c, s) && t < |s.pc| && Locks(c, s) && Queues(c, s) && Within(c, s, c.node[t])
    requires AboutToAdd(s.pc[t]) && 1 <= req <= c.maxReq && pending == |Pending(c, s.pc, c.node[t])| && pending >= 1
    ensures s.q[c.node[t]].counter + req + c.maxReq * (pending - 1) <= c.entries + c.maxReq * (|Team(c, c.node[t])| - 1)
  {
    var n := c.node[t];
    assert t in Team(c, n);
    assert c.maxReq * (pending - 1) == c.maxReq * pending - c.maxReq;
    if s.q[n].counter < c.entries {
      assert !Quiet(s.q[n]);
      assert Helped(c, s, n);
      PendingBound(c, s.pc, n, s.mutex[n].value);
      Scale(c.maxReq, pending, |Team(c, n)| - 1);
    }
  }

  lemma CountersOnEnqueue(c: Config, s: State, s': State, t: Tid)
    requires ValidConfig(c) && Shape(c, s) && t < |s.pc| && Locks(c, s) && Queues(c, s) && Calls(c, s) && Counters(c, s)
    requires EnqueueStep(c, s, s', t)
    ensures Shape(c, s') && Counters(c, s')
  {
    if s.pc[t].Calling? && s'.q == s.q {
      CountersChecked(c, s, s', t);
    } else if s.pc[t].Calling? {
      CountersAdded(c, s, s', t, s.ops[s.pc[t].op].req);
    } else {
      CountersStored(c, s, s', t);
    }
  }

  lemma CountersStored(c: Config, s: State, s': State, t: Tid)
    requires ValidConfig(c) && Shape(c, s) && t < |s.pc| && Counters(c, s) && EnqueueStep(c, s, s', t)
    requires !s.pc[t].Calling?
    ensures Shape(c, s') && Counters(c, s')
  {
    CountersFrame(c, s, s', t);
  }

  lemma CountersOnFlush(c: Config, s: State, s': State, t: Tid)
    requires ValidConfig(c) && Shape(c, s) && t < |s.pc| && Counters(c, s)
    requires FlushStep(c, s, s', t)
    ensures Shape(c, s') && Counters(c, s')
  {
    if s.pc[t].fp.Close? {
      CountersClosed(c, s, s', t);
    } else {
      CountersFrame(c, s, s', t);
    }
  }

  lemma StepKeepsCounters(c: Config, s: State, s': State, t: Tid)
    requires ValidConfig(c) && Inv(c, s) && t < |s.pc| && Counters(c, s) && ThreadStep(c, s, s', t)
    ensures Shape(c, s') && Counters(c, s')
  {
    if EnqueueStep(c, s, s', t) {
      CountersOnEnqueue(c, s, s', t);
    } else if FlushStep(c, s, s', t) {
      CountersOnFlush(c, s, s', t);
    } else {
      OtherStep(c, s, s', t);
      CountersFrame(c, s, s', t);
    }
  }

  lemma OtherStep(c: Config, s: State, s': State, t: Tid)
    requires ValidConfig(c) && Shape(c, s) && t < |s.pc| && ThreadStep(c, s, s', t)
    requires !EnqueueStep(c, s, s', t) && !FlushStep(c, s, s', t)
    ensures Shape(c, s') && s'.pc == s.pc[t := s'.pc[t]] && !AboutToAdd(s'.pc[t])
    ensures forall n :: 0 <= n < c.nodes ==> s'.q[n].counter == s.q[n].counter || s'.q[n].counter == 0
  {
    if CallStep(c, s, s', t) {
    } else if OwnStep(c, s, s', t) {
      OwnCounters(c, s, s', t);
    } else if GuardStep(c, s, s', t) {
    } else if ReaderStep(c, s, s', t) {
      ReaderCounters(c, s, s', t);
    } else {
      var req: nat, direct: bool :| StartCall(c, s, s', t, req, direct);
    }
  }

  lemma ReaderCounters(c: Config, s: State, s': State, t: Tid)
    requires ValidConfig(c) && Shape(c, s) && t < |s.pc| && ReaderStep(c, s, s', t)
    ensures Shape(c, s') && s'.pc == s.pc[t := s'.pc[t]] && !AboutToAdd(s'.pc[t]) && s'.q == s.q
  {
  }

  lemma OwnCounters(c: Config, s: State, s': State, t: Tid)
    requires ValidConfig(c) && Shape(c, s) && t < |s.pc| && OwnStep(c, s, s', t)
    ensures Shape(c, s') && s'.pc == s.pc[t := s'.pc[t]] && !AboutToAdd(s'.pc[t])
    ensures forall n :: 0 <= n < c.nodes ==> s'.q[n].counter == s.q[n].counter || s'.q[n].counter == 0
  {
  }

  lemma InitCounters(c: Config, s: State)
    requires ValidConfig(c) && Init(c, s)
    ensures Counters(c, s)
  {
    forall n | 0 <= n < c.nodes ensures Within(c, s, n) {
      assert Pending(c, s.pc, n) == {};
      if Team(c, n) != {} {
        Scale(c.maxReq, 0, |Team(c, n)| - 1);
      }
    }
  }

  lemma NextKeepsCounters(c: Config, s: State, s': State)
    requires ValidConfig(c) && Shape(c, s') && Inv(c, s) && Next(c, s, s') && Counters(c, s)
    ensures Counters(c, s')
  {
    var t: Tid :| t < |s.pc| && ThreadStep(c, s, s', t);
    StepKeepsCounters(c, s, s', t);
  }

  lemma {:induction false} RunKeepsCounters(c: Config, run: seq<State>, i: nat, s: State)
    requires ValidConfig(c) && Run(c, run) && i < |run| && s == run[i]
    ensures Shape(c, s) && Counters(c, s)
  {
    if i == 0 {
      InitCounters(c, s);
    } else {
      var before := run[i - 1];
      RunKeepsCounters(c, run, i - 1, before);
      RunKeepsInv(c, run, i - 1, before);
      StepOf(c, run, i - 1, before, s);
      NextKeepsCounters(c, before, s);
    }
  }

  /** With T threads on a node, its counter is at most ENTRIES + (T - 1) * M. */
  lemma CounterBound(c: Config, s: State, n: nat)
    requires ValidConfig(c) && Reachable(c, s) && n < c.nodes && Team(c, n) != {}
    ensures s.q[n].counter <= c.entries + c.maxReq * (|Team(c, n)| - 1)
  {
    var run :| Run(c, run) && run[|run| - 1] == s;
    RunKeepsCounters(c, run, |run| - 1, s);
    assert Within(c, s, n);
    Scale(c.maxReq, 0, |Pending(c, s.pc, n)|);
    Scale(c.maxReq, 0, |Team(c, n)| - 1);
  }

  /** So no addition wraps around, and the program's unsigned counter is the model's. */
  lemma AdditionDoesNotWrap(c: Config, s: State, n: nat, req: nat)
    requires ValidConfig(c) && Reachable(c, s) && n < c.nodes && Team(c, n) != {} && req <= c.maxReq
    requires c.entries + c.maxReq * |Team(c, n)| < UNSIGNED_VALUES
    ensures (s.q[n].counter + req) % UNSIGNED_VALUES == s.q[n].counter + req
  {
    CounterBound(c, s, n);
    assert c.maxReq * (|Team(c, n)| - 1) == c.maxReq * |Team(c, n)| - c.maxReq;
  }
}
