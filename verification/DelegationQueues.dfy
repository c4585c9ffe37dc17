/** Every step keeps the queues well formed and in phase with their helpers. */
module DelegationQueues {
  import opened Prelude
  import opened TantrumQueue
  import opened Delegation
  import opened DelegationInvariant

  lemma PhaseExtends(entries: nat, q: Queue, q': Queue, pc: PC)
    requires Wf(entries, q) && Wf(entries, q') && Extends(q, q') && Phase(entries, q, pc)
    ensures Phase(entries, q', pc)
  {
  }

  /** The queues are untouched and t keeps, or does not have, a helper's obligations. */
  lemma QueuesFrame(c: Config, s: State, s': State, t: Tid)
    requires ValidConfig(c) && Shape(c, s) && Shape(c, s') && t < |s.pc| && Queues(c, s)
    requires s'.pc == s.pc[t := s'.pc[t]] && s'.mutex == s.mutex && s'.q == s.q
    requires Helping(s'.pc[t]) == Helping(s.pc[t])
    requires Helping(s.pc[t]) ==> Phase(c.entries, s.q[c.node[t]], s'.pc[t])
    ensures Queues(c, s')
  {
    assert forall n :: 0 <= n < c.nodes ==> Helped(c, s', n) == Helped(c, s, n);
  }

  /** An enqueuer t changes its node's queue. */
  lemma QueuesExtended(c: Config, s: State, s': State, t: Tid, q': Queue)
    requires ValidConfig(c) && Shape(c, s) && Shape(c, s') && t < |s.pc| && Queues(c, s)
    requires s'.pc == s.pc[t := s'.pc[t]] && s'.mutex == s.mutex && s'.q == s.q[c.node[t] := q']
    requires !Helping(s'.pc[t]) && !Helping(s.pc[t])
    requires Wf(c.entries, q') && Extends(s.q[c.node[t]], q')
    ensures Queues(c, s')
  {
    assert forall n :: 0 <= n < c.nodes ==> Helped(c, s', n) == Helped(c, s, n);
    forall u | 0 <= u < |s'.pc| && Helping(s'.pc[u]) ensures Phase(c.entries, s'.q[c.node[u]], s'.pc[u]) {
      if c.node[u] == c.node[t] {
        PhaseExtends(c.entries, s.q[c.node[t]], q', s.pc[u]);
      }
    }
  }

  /** The holder t of the node's mutex changes its queue. */
  lemma QueuesHeld(c: Config, s: State, s': State, t: Tid, q': Queue)
    requires ValidConfig(c) && Shape(c, s) && Shape(c, s') && t < |s.pc| && Locks(c, s) && Queues(c, s)
    requires s'.pc == s.pc[t := s'.pc[t]] && s'.mutex == s.mutex && s'.q == s.q[c.node[t] := q']
    requires HoldsMutex(s.pc[t])
    requires Wf(c.entries, q')
    requires if Helping(s'.pc[t]) then Phase(c.entries, q', s'.pc[t]) else Quiet(q')
    ensures Queues(c, s')
  {
    var m := c.node[t];
    forall n | 0 <= n < c.nodes && n != m ensures Helped(c, s', n) == Helped(c, s, n) {
    }
    assert Helped(c, s', m) == Helping(s'.pc[t]);
    forall u | 0 <= u < |s'.pc| && Helping(s'.pc[u]) ensures Phase(c.entries, s'.q[c.node[u]], s'.pc[u]) {
      if u != t {
        assert s.mutex[c.node[u]] == Some(u);
      }
    }
  }

  lemma QueuesOnStart(c: Config, s: State, s': State, t: Tid, req: nat, direct: bool)
    requires ValidConfig(c) && Shape(c, s) && t < |s.pc| && Queues(c, s) && StartCall(c, s, s', t, req, direct)
    ensures Shape(c, s') && Queues(c, s')
  {
    QueuesFrame(c, s, s', t);
  }

  lemma QueuesAcquired(c: Config, s: State, t: Tid, helper: bool)
    requires ValidConfig(c) && Shape(c, s) && t < |s.pc| && Locks(c, s) && Queues(c, s)
    requires s.pc[t].Calling? && s.mutex[c.node[t]] == None
    ensures Queues(c, Acquire(c, s, t, helper))
  {
    var s' := Acquire(c, s, t, helper);
    assert forall n :: 0 <= n < c.nodes ==> Helped(c, s', n) == Helped(c, s, n);
  }

  lemma QueuesOnCall(c: Config, s: State, s': State, t: Tid)
    requires ValidConfig(c) && Shape(c, s) && t < |s.pc| && Locks(c, s) && Queues(c, s) && CallStep(c, s, s', t)
    ensures Shape(c, s') && Queues(c, s')
  {
    if s'.mutex == s.mutex {
      QueuesFrame(c, s, s', t);
    } else {
      QueuesAcquired(c, s, t, s'.pc[t].helper);
    }
  }

  lemma QueuesOnReader(c: Config, s: State, s': State, t: Tid)
    requires ValidConfig(c) && Shape(c, s) && t < |s.pc| && Queues(c, s) && ReaderStep(c, s, s', t)
    ensures Shape(c, s') && Queues(c, s')
  {
    QueuesFrame(c, s, s', t);
  }

  lemma QueuesOnGuard(c: Config, s: State, s': State, t: Tid)
    requires ValidConfig(c) && Shape(c, s) && t < |s.pc| && Locks(c, s) && Queues(c, s) && GuardStep(c, s, s', t)
    ensures Shape(c, s') && Queues(c, s')
  {
    if s.pc[t].MUnlock? {
      assert forall n :: 0 <= n < c.nodes ==> Helped(c, s', n) == Helped(c, s, n);
    } else {
      QueuesFrame(c, s, s', t);
    }
  }

  lemma QueuesOnOwn(c: Config, s: State, s': State, t: Tid)
    requires ValidConfig(c) && Shape(c, s) && t < |s.pc| && Locks(c, s) && Queues(c, s) && OwnStep(c, s, s', t)
    ensures Shape(c, s') && Queues(c, s')
  {
    var q := s.q[c.node[t]];
    if s.pc[t].OpenQueue? {
      OpenKeeps(c.entries, q);
      assert s.mutex[c.node[t]] == Some(t);
      assert !Helped(c, s, c.node[t]);
      QueuesHeld(c, s, s', t, Open(q));
    } else {
      QueuesFrame(c, s, s', t);
    }
  }

  lemma QueuesOnReserve(c: Config, s: State, s': State, t: Tid)
    requires ValidConfig(c) && Shape(c, s) && t < |s.pc| && Queues(c, s) && Calls(c, s)
    requires s.pc[t].Calling? && EnqueueStep(c, s, s', t)
    ensures Shape(c, s') && Queues(c, s')
  {
    if s'.q == s.q {
      QueuesFrame(c, s, s', t);
    } else {
      var q, op := s.q[c.node[t]], s.pc[t].op;
      assert CallAt(t, s.pc[t], s.ops[op]);
      ReserveOk(c.entries, q, t, op, s.ops[op].req);
      QueuesReserved(c, s, s', t, op);
    }
  }

  lemma ReserveOk(entries: nat, q: Queue, t: Tid, op: OpId, req: nat)
    requires Wf(entries, q) && 1 <= req <= entries
    ensures Wf(entries, TantrumQueue.Reserve(entries, q, t, op, req))
    ensures Extends(q, TantrumQueue.Reserve(entries, q, t, op, req))
  {
    ReserveKeeps(entries, q, t, op, req);
    ReserveExtends(entries, q, t, op, req);
  }

  lemma QueuesReserved(c: Config, s: State, s': State, t: Tid, op: OpId)
    requires ValidConfig(c) && Shape(c, s) && t < |s.pc| && Queues(c, s) && s.pc[t].Calling?
    requires s.pc[t].at.Reserve? && op < |s.ops| && s.ops[op].req <= c.entries
    requires s' == Delegation.Reserved(c, s, t, op, s.pc[t].at.retry)
    requires Wf(c.entries, s'.q[c.node[t]]) && Extends(s.q[c.node[t]], s'.q[c.node[t]])
    ensures Shape(c, s') && Queues(c, s')
  {
    QueuesExtended(c, s, s', t, s'.q[c.node[t]]);
  }

  lemma QueuesOnStore(c: Config, s: State, s': State, t: Tid)
    requires ValidConfig(c) && Shape(c, s) && t < |s.pc| && Queues(c, s) && Writers(c, s) && Calls(c, s) && Places(c, s)
    requires s.pc[t].Storing? && EnqueueStep(c, s, s', t)
    ensures Shape(c, s') && Queues(c, s')
  {
    var q, pc := s.q[c.node[t]], s.pc[t];
    StoreEffect(c, s, s', t);
    assert InQueue(q, pc.k, pc.op, s.ops[pc.op].req);
    StoreOk(c.entries, q, pc, s.ops[pc.op].req, s'.q[c.node[t]]);
    QueuesExtended(c, s, s', t, s'.q[c.node[t]]);
  }

  lemma StoreEffect(c: Config, s: State, s': State, t: Tid)
    requires ValidConfig(c) && Shape(c, s) && t < |s.pc| && s.pc[t].Storing? && s.pc[t].op < |s.ops|
    requires EnqueueStep(c, s, s', t)
    ensures
      var q, pc := s.q[c.node[t]], s.pc[t];
      && pc.k < |q.res| && |s'.q| == |s.q|
      && (if pc.written then pc.index < |q.fn| && s'.q[c.node[t]] == Publish(q, pc.index, Wrapper, pc.k)
          else
            && pc.index < |q.cells|
            && s'.q[c.node[t]] == TantrumQueue.WriteEntry(q, pc.index, s.ops[pc.op].req, pc.op, pc.k))
  {
  }

  lemma StoreOk(entries: nat, q: Queue, pc: PC, req: nat, q': Queue)
    requires Wf(entries, q) && pc.Storing? && q.pos <= pc.k < |q.res| && pc.index < entries
    requires q.res[pc.k].index == pc.index && q.res[pc.k].size == req && q.res[pc.k].op == Some(pc.op)
    requires q.res[pc.k].stage == (if pc.written then Written else Stage.Reserved)
    requires q' == if pc.written then Publish(q, pc.index, Wrapper, pc.k)
        else TantrumQueue.WriteEntry(q, pc.index, req, pc.op, pc.k)
    ensures Wf(entries, q') && Extends(q, q')
  {
    if pc.written {
      PublishKeeps(entries, q, pc.index, Wrapper, pc.k);
      PublishExtends(entries, q, pc.index, Wrapper, pc.k);
    } else {
      WriteEntryKeeps(entries, q, pc.index, req, pc.op, pc.k);
      StoreExtends(entries, q, pc.index, req, pc.op, pc.k);
    }
  }

  lemma QueuesOnPad(c: Config, s: State, s': State, t: Tid)
    requires ValidConfig(c) && Shape(c, s) && t < |s.pc| && Queues(c, s) && Writers(c, s)
    requires s.pc[t].Padding? && EnqueueStep(c, s, s', t)
    ensures Shape(c, s') && Queues(c, s')
  {
    PadEffect(c, s, s', t);
    PadOk(c.entries, s.q[c.node[t]], s.pc[t], s'.q[c.node[t]]);
    QueuesExtended(c, s, s', t, s'.q[c.node[t]]);
  }

  lemma PadEffect(c: Config, s: State, s': State, t: Tid)
    requires ValidConfig(c) && Shape(c, s) && t < |s.pc| && s.pc[t].Padding? && EnqueueStep(c, s, s', t)
    ensures
      var q, pc := s.q[c.node[t]], s.pc[t];
      && pc.k < |q.res| && |s'.q| == |s.q|
      && (if pc.written then pc.index < |q.fn| && s'.q[c.node[t]] == Publish(q, pc.index, Nop, pc.k)
          else
            && pc.index < |q.cells| && pc.index <= c.entries
            && s'.q[c.node[t]] == WritePad(q, pc.index, c.entries - pc.index, pc.k))
  {
  }

  lemma PadOk(entries: nat, q: Queue, pc: PC, q': Queue)
    requires Wf(entries, q) && pc.Padding? && q.pos <= pc.k < |q.res| && pc.index < entries
    requires q.res[pc.k].index == pc.index && q.res[pc.k].size == entries - pc.index && q.res[pc.k].op == None
    requires q.res[pc.k].stage == (if pc.written then Written else Stage.Reserved)
    requires q' == if pc.written then Publish(q, pc.index, Nop, pc.k)
        else WritePad(q, pc.index, entries - pc.index, pc.k)
    ensures Wf(entries, q') && Extends(q, q')
  {
    if pc.written {
      PublishKeeps(entries, q, pc.index, Nop, pc.k);
      PublishExtends(entries, q, pc.index, Nop, pc.k);
    } else {
      WritePadKeeps(entries, q, pc.index, entries - pc.index, pc.k);
      StoreExtends(entries, q, pc.index, entries - pc.index, pc.op, pc.k);
    }
  }

  lemma QueuesOnEnqueue(c: Config, s: State, s': State, t: Tid)
    requires ValidConfig(c) && Shape(c, s) && t < |s.pc| && Queues(c, s) && Writers(c, s) && Calls(c, s) && Places(c, s)
    requires EnqueueStep(c, s, s', t)
    ensures Shape(c, s') && Queues(c, s')
  {
    if s.pc[t].Calling? {
      QueuesOnReserve(c, s, s', t);
    } else if s.pc[t].Storing? {
      QueuesOnStore(c, s, s', t);
    } else {
      QueuesOnPad(c, s, s', t);
    }
  }

  /** flush: each of its accesses in turn. */
  lemma QueuesOnLoad(c: Config, s: State, s': State, t: Tid)
    requires ValidConfig(c) && Shape(c, s) && t < |s.pc| && Locks(c, s) && Queues(c, s)
    requires s.pc[t].Flush? && (s.pc[t].fp.Load? || s.pc[t].fp.Close?) && FlushStep(c, s, s', t)
    ensures Shape(c, s') && Queues(c, s')
  {
    var q := s.q[c.node[t]];
    assert Phase(c.entries, q, s.pc[t]);
    if s'.q == s.q {
      QueuesFrame(c, s, s', t);
    } else {
      LoadTodoKeeps(c.entries, q);
      CloseKeeps(c.entries, q);
      AfterLoad(c.entries, q, s.pc[t].op, s.pc[t].fp.done, s.pc[t].fp.Load?);
      QueuesHeld(c, s, s', t, s'.q[c.node[t]]);
    }
  }

  lemma AfterLoad(entries: nat, q: Queue, op: OpId, done: nat, load: bool)
    requires Wf(entries, q) && q.live && q.pos == q.lim && done == Start(q.res, q.pos)
    requires load ==> q.counter != done
    ensures
      var q' := if load then LoadTodo(entries, q) else TantrumQueue.Close(entries, q);
      var pc := AfterEntries(op, done, Min(q.counter, entries), load && q.counter < entries);
      Wf(entries, q') && if Helping(pc) then Phase(entries, q', pc) else Quiet(q')
  {
    LoadTodoKeeps(entries, q);
    CloseKeeps(entries, q);
    StartMonotone(q.res, q.pos, |q.res|);
  }

  /** What the flush finds at an entry is what the reservation's owner stored there. */
  lemma EntryFacts(c: Config, s: State, t: Tid)
    requires ValidConfig(c) && Shape(c, s) && t < |s.pc| && Queues(c, s)
    requires s.pc[t].Flush? && s.pc[t].fp.Entry?
    ensures
      var q := s.q[c.node[t]];
      && q.pos < |q.res| && q.res[q.pos].stage == Published
      && s.pc[t].fp.f == FnOf(q.res[q.pos])
      && s.pc[t].fp.index < |q.cells|
      && (q.res[q.pos].op.Some? ==> q.cells[s.pc[t].fp.index].op == q.res[q.pos].op.value)
  {
    var q := s.q[c.node[t]];
    assert Phase(c.entries, q, s.pc[t]);
    assert Follows(q.res, q.pos);
    VisibleEntry(c.entries, q);
  }

  lemma QueuesOnEntry(c: Config, s: State, s': State, t: Tid)
    requires ValidConfig(c) && Shape(c, s) && t < |s.pc| && Locks(c, s) && Queues(c, s)
    requires s.pc[t].Flush? && s.pc[t].fp.Entry? && FlushStep(c, s, s', t)
    ensures Shape(c, s') && Queues(c, s')
  {
    var q, fp := s.q[c.node[t]], s.pc[t].fp;
    assert Phase(c.entries, q, s.pc[t]);
    AfterEntry(c.entries, q, s.pc[t].op, fp.todo, fp.open);
    QueuesHeld(c, s, s', t, s'.q[c.node[t]]);
  }

  /** The size found in the buffer leads exactly to the next reservation. */
  lemma NextEntry(entries: nat, q: Queue)
    requires Wf(entries, q) && q.pos < q.lim && Start(q.res, q.pos) < entries && q.fn[Start(q.res, q.pos)] != Null
    ensures Start(q.res, q.pos) + q.cells[Start(q.res, q.pos)].size == Start(q.res, q.pos + 1)
    ensures q.res[q.pos].stage == Published
    ensures q.pos + 1 < q.lim ==> Start(q.res, q.pos + 1) < Start(q.res, q.lim) && Start(q.res, q.pos + 1) < entries
  {
    assert Follows(q.res, q.pos);
    VisibleEntry(entries, q);
    if q.pos + 1 < q.lim {
      StartMonotone(q.res, q.pos + 1, q.lim);
      assert Follows(q.res, q.pos + 1);
    }
  }

  lemma AfterEntry(entries: nat, q: Queue, op: OpId, todo: nat, open: bool)
    requires Wf(entries, q) && Draining(entries, q, Start(q.res, q.pos), todo, open)
    requires q.fn[Start(q.res, q.pos)] != Null
    ensures
      var pc := AfterEntries(op, Start(q.res, q.pos) + q.cells[Start(q.res, q.pos)].size, todo, open);
      Wf(entries, Advance(q)) && if Helping(pc) then Phase(entries, Advance(q), pc) else Quiet(Advance(q))
  {
    NextEntry(entries, q);
    AdvanceKeeps(entries, q);
    var pc := AfterEntries(op, Start(q.res, q.pos + 1), todo, open);
    if q.pos + 1 == q.lim {
      assert Start(q.res, q.pos + 1) == todo;
    }
  }

  lemma QueuesOnFill(c: Config, s: State, s': State, t: Tid)
    requires ValidConfig(c) && Shape(c, s) && t < |s.pc| && Locks(c, s) && Queues(c, s)
    requires s.pc[t].Flush? && s.pc[t].fp.Fill? && FlushStep(c, s, s', t)
    ensures Shape(c, s') && Queues(c, s')
  {
    assert Phase(c.entries, s.q[c.node[t]], s.pc[t]);
    ClearSlotKeeps(c.entries, s.q[c.node[t]], s.pc[t].fp.i);
    QueuesHeld(c, s, s', t, s'.q[c.node[t]]);
  }

  lemma QueuesOnPoll(c: Config, s: State, s': State, t: Tid)
    requires ValidConfig(c) && Shape(c, s) && t < |s.pc| && Locks(c, s) && Queues(c, s)
    requires s.pc[t].Flush? && s.pc[t].fp.Poll? && FlushStep(c, s, s', t)
    ensures Shape(c, s') && Queues(c, s')
  {
    assert Phase(c.entries, s.q[c.node[t]], s.pc[t]);
    QueuesFrame(c, s, s', t);
  }

  lemma QueuesOnFlush(c: Config, s: State, s': State, t: Tid)
    requires ValidConfig(c) && Shape(c, s) && t < |s.pc| && Locks(c, s) && Queues(c, s) && FlushStep(c, s, s', t)
    ensures Shape(c, s') && Queues(c, s')
  {
    match s.pc[t].fp
    case Load(_) => QueuesOnLoad(c, s, s', t);
    case Close(_) => QueuesOnLoad(c, s, s', t);
    case Poll(_, _, _) => QueuesOnPoll(c, s, s', t);
    case Entry(_, _, _, _) => QueuesOnEntry(c, s, s', t);
    case Fill(_, _) => QueuesOnFill(c, s, s', t);
  }
}
