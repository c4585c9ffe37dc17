/** Every step keeps the real-time order of calls. */
module DelegationOrder {
  import opened Prelude
  import opened TantrumQueue
  import opened Delegation
  import opened DelegationInvariant
  import opened DelegationQueues
  import opened DelegationCalls

  /** No call changes place, although one may return. */
  ghost predicate SameCalls(ops: seq<Call>, ops': seq<Call>) {
    && |ops'| == |ops|
    && (forall o :: 0 <= o < |ops| ==>
          && ops'[o] == ops[o].(returned := ops'[o].returned)
          && (ops[o].returned ==> ops'[o].returned))
  }

  lemma OrderFrame(c: Config, s: State, s': State)
    requires ValidConfig(c) && Shape(c, s) && Shape(c, s') && Calls(c, s) && Calls(c, s') && Order(c, s)
    requires SameCalls(s.ops, s'.ops)
    ensures Order(c, s')
  {
    forall b, a | 0 <= b < |s'.ops| && a in s'.ops[b].before ensures IsBehind(c, s', a, b) {
      assert a in s.ops[b].before && IsBehind(c, s, a, b);
    }
  }

  lemma ClearedFrame(c: Config, s: State, s': State, t: Tid)
    requires ValidConfig(c) && Shape(c, s) && Shape(c, s') && t < |s.pc| && Calls(c, s) && Calls(c, s') && Cleared(c, s)
    requires s'.pc == s.pc[t := s'.pc[t]] && SameCalls(s.ops, s'.ops)
    requires InGuard(s'.pc[t]) && Fresh(s'.pc[t]) ==> AreLogged(s'.ops, s'.ops[s'.pc[t].op].before)
    ensures Cleared(c, s')
  {
  }

  /** A call moves into a queue or into the log, behind everything that returned before it began. */
  lemma OrderMoved(c: Config, s: State, s': State, o: OpId, st: Status)
    requires ValidConfig(c) && Shape(c, s) && Shape(c, s') && Calls(c, s) && Calls(c, s') && Order(c, s)
    requires o < |s.ops| && s'.ops == SetStatus(s.ops, o, st) && (st.Logged? || st.Queued?)
    requires !s.ops[o].status.Logged? && (s.ops[o].returned ==> st.Logged?)
    requires forall a :: a in s.ops[o].before ==> a < |s.ops| && Precedes(s.ops[a], s'.ops[o], c.node)
    requires st.Logged? ==> forall x :: 0 <= x < |s.ops| && s.ops[x].status.Logged? ==> s.ops[x].status.p < st.p
    ensures Order(c, s')
  {
    forall b, a | 0 <= b < |s'.ops| && a in s'.ops[b].before ensures IsBehind(c, s', a, b) {
      assert a in s.ops[b].before && IsBehind(c, s, a, b);
      MovedBehind(s.ops, o, st, a, b, c.node);
    }
  }

  lemma MovedBehind(ops: seq<Call>, o: OpId, st: Status, a: OpId, b: OpId, node: seq<nat>)
    requires a < |ops| && b < |ops| && o < |ops| && (st.Logged? || st.Queued?)
    requires ops[a].thread < |node| && ops[b].thread < |node| && ops[o].thread < |node|
    requires ops[a].returned && Precedes(ops[a], ops[b], node)
    requires !ops[o].status.Logged? && (ops[o].returned ==> st.Logged?)
    requires b == o ==> Precedes(ops[a], ops[o].(status := st), node)
    requires st.Logged? ==> forall x :: 0 <= x < |ops| && ops[x].status.Logged? ==> ops[x].status.p < st.p
    ensures Precedes(SetStatus(ops, o, st)[a], SetStatus(ops, o, st)[b], node)
  {
  }

  lemma ClearedMoved(c: Config, s: State, s': State, t: Tid, o: OpId, st: Status)
    requires ValidConfig(c) && Shape(c, s) && Shape(c, s') && t < |s.pc| && Calls(c, s) && Calls(c, s') && Cleared(c, s)
    requires s'.pc == s.pc[t := s'.pc[t]] && !(InGuard(s'.pc[t]) && Fresh(s'.pc[t]))
    requires o < |s.ops| && !s.ops[o].status.Logged? && s'.ops == SetStatus(s.ops, o, st)
    ensures Cleared(c, s')
  {
  }

  lemma OrderOnStart(c: Config, s: State, s': State, t: Tid, req: nat, direct: bool)
    requires ValidConfig(c) && Shape(c, s) && t < |s.pc| && Calls(c, s) && Order(c, s) && Cleared(c, s)
    requires StartCall(c, s, s', t, req, direct) && Shape(c, s') && Calls(c, s')
    ensures Order(c, s') && Cleared(c, s')
  {
    forall b, a | 0 <= b < |s'.ops| && a in s'.ops[b].before ensures IsBehind(c, s', a, b) {
      if b < |s.ops| {
        assert a in s.ops[b].before && IsBehind(c, s, a, b);
      }
    }
  }

  lemma OrderOnCall(c: Config, s: State, s': State, t: Tid)
    requires ValidConfig(c) && Shape(c, s) && t < |s.pc| && Calls(c, s) && Order(c, s) && Cleared(c, s)
    requires CallStep(c, s, s', t) && Shape(c, s') && Calls(c, s')
    ensures Order(c, s') && Cleared(c, s')
  {
    OrderFrame(c, s, s');
    ClearedFrame(c, s, s', t);
  }

  lemma OrderOnReader(c: Config, s: State, s': State, t: Tid)
    requires ValidConfig(c) && Shape(c, s) && t < |s.pc| && Calls(c, s) && Order(c, s) && Cleared(c, s)
    requires ReaderStep(c, s, s', t) && Shape(c, s') && Calls(c, s')
    ensures Order(c, s') && Cleared(c, s')
  {
    OrderFrame(c, s, s');
    ClearedFrame(c, s, s', t);
  }

  /** While nobody is inside a guarded region, every queue is quiet. */
  lemma AllQuiet(c: Config, s: State)
    requires ValidConfig(c) && Shape(c, s) && Locks(c, s) && Queues(c, s)
    requires forall t :: 0 <= t < |s.pc| ==> !InGuard(s.pc[t])
    ensures forall n :: 0 <= n < c.nodes ==> Quiet(s.q[n])
  {
    assert forall n :: 0 <= n < c.nodes ==> !Helped(c, s, n);
  }

  /** With every queue quiet, all calls that have returned are in the log. */
  lemma ReturnedIsLogged(c: Config, s: State, a: OpId)
    requires ValidConfig(c) && Shape(c, s) && Calls(c, s) && Places(c, s)
    requires forall n :: 0 <= n < c.nodes ==> Quiet(s.q[n])
    requires a < |s.ops| && s.ops[a].returned
    ensures s.ops[a].status.Logged?
  {
    var n := c.node[s.ops[a].thread];
    assert Quiet(s.q[n]);
  }

  /** A thread that is about to enter its guarded region finds nobody inside. */
  lemma NobodyInside(c: Config, s: State, t: Tid)
    requires ValidConfig(c) && Shape(c, s) && t < |s.pc| && Locks(c, s)
    requires s.pc[t].HLock? && (c.hier ==> s.global == None)
    ensures forall u :: 0 <= u < |s.pc| ==> !InGuard(s.pc[u])
  {
    assert s.mutex[c.node[t]] == Some(t);
  }

  lemma EntersInOrder(c: Config, s: State, t: Tid)
    requires ValidConfig(c) && Shape(c, s) && t < |s.pc| && Locks(c, s) && Queues(c, s) && Calls(c, s) && Places(c, s)
    requires Order(c, s)
    requires s.pc[t].HLock? && (c.hier ==> s.global == None)
    ensures s.pc[t].op < |s.ops| && AreLogged(s.ops, s.ops[s.pc[t].op].before)
  {
    NobodyInside(c, s, t);
    AllQuiet(c, s);
    forall a | a in s.ops[s.pc[t].op].before ensures a < |s.ops| && s.ops[a].status.Logged? {
      assert IsBehind(c, s, a, s.pc[t].op);
      ReturnedIsLogged(c, s, a);
    }
  }

  lemma OrderOnGuard(c: Config, s: State, s': State, t: Tid)
    requires ValidConfig(c) && Shape(c, s) && t < |s.pc| && Locks(c, s) && Queues(c, s) && Calls(c, s) && Places(c, s)
    requires Order(c, s) && Cleared(c, s)
    requires GuardStep(c, s, s', t) && Shape(c, s') && Calls(c, s')
    ensures Order(c, s') && Cleared(c, s')
  {
    OrderFrame(c, s, s');
    if s.pc[t].HLock? && !s'.pc[t].HLock? {
      EntersInOrder(c, s, t);
    }
    ClearedFrame(c, s, s', t);
  }

  lemma OrderOnOwn(c: Config, s: State, s': State, t: Tid)
    requires ValidConfig(c) && Shape(c, s) && t < |s.pc| && Calls(c, s) && Places(c, s) && Order(c, s) && Cleared(c, s)
    requires OwnStep(c, s, s', t) && Shape(c, s') && Calls(c, s')
    ensures Order(c, s') && Cleared(c, s')
  {
    if s'.ops == s.ops {
      OrderFrame(c, s, s');
      ClearedFrame(c, s, s', t);
    } else {
      OrderOnSection(c, s, s', t);
    }
  }

  lemma OrderOnSection(c: Config, s: State, s': State, t: Tid)
    requires ValidConfig(c) && Shape(c, s) && t < |s.pc| && Calls(c, s) && Places(c, s) && Order(c, s) && Cleared(c, s)
    requires s.pc[t].Own? && s.pc[t].point.Section? && OwnStep(c, s, s', t) && Shape(c, s') && Calls(c, s')
    ensures Order(c, s') && Cleared(c, s')
  {
    var o := s.pc[t].op;
    assert AreLogged(s.ops, s.ops[o].before);
    OrderMoved(c, s, s', o, Logged(|s.log|));
    ClearedMoved(c, s, s', t, o, Logged(|s.log|));
  }

  /** At most one queue is in use, so a call waiting elsewhere cannot be overtaken. */
  lemma OneQueueInUse(c: Config, s: State, m: nat, n: nat)
    requires ValidConfig(c) && Shape(c, s) && Locks(c, s) && Queues(c, s)
    requires m < c.nodes && n < c.nodes && !Quiet(s.q[m]) && !Quiet(s.q[n])
    ensures m == n
  {
    assert Helped(c, s, m) && Helped(c, s, n);
    GuardUnique(c, s, s.mutex[m].value, s.mutex[n].value);
  }

  /** A successful reservation is behind every call that returned before its own began. */
  lemma QueuedBehind(c: Config, s: State, t: Tid, o: OpId, a: OpId)
    requires ValidConfig(c) && Shape(c, s) && t < |s.pc| && Locks(c, s) && Queues(c, s) && Calls(c, s) && Places(c, s)
    requires o < |s.ops| && s.ops[o].thread == t && IsBehind(c, s, a, o)
    requires Fits(c.entries, s.q[c.node[t]].counter, s.ops[o].req)
    ensures Precedes(s.ops[a], s.ops[o].(status := Queued(|s.q[c.node[t]].res|)), c.node)
  {
    if s.ops[a].status.Queued? {
      var m := c.node[s.ops[a].thread];
      assert InQueue(s.q[m], s.ops[a].status.k, a, s.ops[a].req);
      assert s.q[c.node[t]].live;
      OneQueueInUse(c, s, m, c.node[t]);
    }
  }

  lemma OrderOnReserve(c: Config, s: State, s': State, t: Tid)
    requires ValidConfig(c) && Shape(c, s) && t < |s.pc| && Locks(c, s) && Queues(c, s) && Calls(c, s) && Places(c, s)
    requires Order(c, s) && Cleared(c, s)
    requires s.pc[t].Calling? && EnqueueStep(c, s, s', t) && Shape(c, s') && Calls(c, s')
    ensures Order(c, s') && Cleared(c, s')
  {
    ReserveEffect(c, s, s', t);
    if s'.ops == s.ops {
      OrderFrame(c, s, s');
      ClearedFrame(c, s, s', t);
    } else {
      OrderReserved(c, s, s', t, s.pc[t].op);
    }
  }

  /** Either the calls stay as they are, or the thread's own has been queued. */
  lemma ReserveEffect(c: Config, s: State, s': State, t: Tid)
    requires ValidConfig(c) && Shape(c, s) && t < |s.pc| && s.pc[t].Calling? && EnqueueStep(c, s, s', t)
    ensures Shape(c, s') && s'.pc == s.pc[t := s'.pc[t]] && !InGuard(s'.pc[t])
    ensures s.pc[t].op < |s.ops| && s.ops[s.pc[t].op].req <= c.entries
    ensures s'.ops == s.ops
      || (Fits(c.entries, s.q[c.node[t]].counter, s.ops[s.pc[t].op].req) && s'.pc[t].Storing?
          && s'.ops == SetStatus(s.ops, s.pc[t].op, Queued(|s.q[c.node[t]].res|)))
  {
  }

  lemma OrderReserved(c: Config, s: State, s': State, t: Tid, o: OpId)
    requires ValidConfig(c) && Shape(c, s) && t < |s.pc| && Locks(c, s) && Queues(c, s) && Calls(c, s) && Places(c, s)
    requires Order(c, s) && Cleared(c, s) && Shape(c, s') && Calls(c, s')
    requires s.pc[t].Calling? && s.pc[t].op == o && s.ops[o].req <= c.entries
    requires Fits(c.entries, s.q[c.node[t]].counter, s.ops[o].req)
    requires s'.ops == SetStatus(s.ops, o, Queued(|s.q[c.node[t]].res|))
    requires s'.pc == s.pc[t := s'.pc[t]] && s'.pc[t].Storing?
    ensures Order(c, s') && Cleared(c, s')
  {
    var st := Queued(|s.q[c.node[t]].res|);
    forall a | a in s.ops[o].before ensures a < |s.ops| && Precedes(s.ops[a], s'.ops[o], c.node) {
      assert IsBehind(c, s, a, o);
      QueuedBehind(c, s, t, o, a);
    }
    OrderMoved(c, s, s', o, st);
    ClearedMoved(c, s, s', t, o, st);
  }

  lemma OrderOnStore(c: Config, s: State, s': State, t: Tid)
    requires ValidConfig(c) && Shape(c, s) && t < |s.pc| && Calls(c, s) && Order(c, s) && Cleared(c, s)
    requires Writing(s.pc[t]) && EnqueueStep(c, s, s', t) && Shape(c, s') && Calls(c, s')
    ensures Order(c, s') && Cleared(c, s')
  {
    OrderFrame(c, s, s');
    ClearedFrame(c, s, s', t);
  }

  lemma OrderOnFlush(c: Config, s: State, s': State, t: Tid)
    requires ValidConfig(c) && Shape(c, s) && t < |s.pc| && Queues(c, s) && Writers(c, s) && Calls(c, s) && Places(c, s)
    requires Order(c, s) && Cleared(c, s)
    requires FlushStep(c, s, s', t) && Shape(c, s') && Calls(c, s')
    ensures Order(c, s') && Cleared(c, s')
  {
    if s.pc[t].fp.Entry? && s.pc[t].fp.f == Wrapper {
      OrderOnEntry(c, s, s', t);
    } else {
      PlainFlush(c, s, s', t);
      OrderFrame(c, s, s');
      ClearedFrame(c, s, s', t);
    }
  }

  /** The entry at the flush position has no predecessor left in the queue. */
  lemma NothingBefore(c: Config, s: State, m: nat, o: OpId, a: OpId)
    requires ValidConfig(c) && Shape(c, s) && Calls(c, s) && Places(c, s)
    requires m < c.nodes && s.q[m].pos < |s.q[m].res| && IsQueued(c, s, m, s.q[m].pos, o) && IsBehind(c, s, a, o)
    ensures s.ops[a].status.Logged? && s.ops[a].status.p < |s.log|
  {
    if s.ops[a].status.Queued? {
      assert false;
    }
  }

  /** Entries are executed in the order of their reservations. */
  lemma OrderOnEntry(c: Config, s: State, s': State, t: Tid)
    requires ValidConfig(c) && Shape(c, s) && t < |s.pc| && Queues(c, s) && Writers(c, s) && Calls(c, s) && Places(c, s)
    requires Order(c, s) && Cleared(c, s)
    requires s.pc[t].Flush? && s.pc[t].fp.Entry? && s.pc[t].fp.f == Wrapper
    requires FlushStep(c, s, s', t) && Shape(c, s') && Calls(c, s')
    ensures Order(c, s') && Cleared(c, s')
  {
    EntryHasReturned(c, s, t);
    var m := c.node[t];
    OrderPassed(c, s, s', t, m, s.q[m].cells[s.pc[t].fp.index].op);
  }

  lemma OrderPassed(c: Config, s: State, s': State, t: Tid, m: nat, o: OpId)
    requires ValidConfig(c) && Shape(c, s) && Shape(c, s') && t < |s.pc| && Calls(c, s) && Calls(c, s') && Places(c, s)
    requires Order(c, s) && Cleared(c, s)
    requires m < c.nodes && s.q[m].pos < |s.q[m].res| && IsQueued(c, s, m, s.q[m].pos, o)
    requires s'.pc == s.pc[t := s'.pc[t]] && !(InGuard(s'.pc[t]) && Fresh(s'.pc[t]))
    requires s'.ops == SetStatus(s.ops, o, Logged(|s.log|))
    ensures Order(c, s') && Cleared(c, s')
  {
    forall a | a in s.ops[o].before ensures a < |s.ops| && Precedes(s.ops[a], s'.ops[o], c.node) {
      assert IsBehind(c, s, a, o);
      NothingBefore(c, s, m, o, a);
    }
    OrderMoved(c, s, s', o, Logged(|s.log|));
    ClearedMoved(c, s, s', t, o, Logged(|s.log|));
  }
}
