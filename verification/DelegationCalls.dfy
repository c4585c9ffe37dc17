/** Every step keeps each call in exactly one place: with its thread, in a queue, or in the log. */
module DelegationCalls {
  import opened Prelude
  import opened TantrumQueue
  import opened Delegation
  import opened DelegationInvariant
  import opened DelegationQueues

  // ---------- who is responsible for a call ----------

  lemma CallsFrame(c: Config, s: State, s': State, t: Tid)
    requires ValidConfig(c) && Shape(c, s) && Shape(c, s') && t < |s.pc| && Calls(c, s)
    requires s'.pc == s.pc[t := s'.pc[t]] && s'.ops == s.ops
    requires HasCall(s'.pc[t]) == HasCall(s.pc[t])
    requires HasCall(s.pc[t]) ==> s'.pc[t].op == s.pc[t].op && CallAt(t, s'.pc[t], s.ops[s.pc[t].op])
    ensures Calls(c, s')
  {
  }

  /** t changes the record of its own call and moves on, or returns from it. */
  lemma CallsOwn(c: Config, s: State, s': State, t: Tid, call: Call)
    requires ValidConfig(c) && Shape(c, s) && Shape(c, s') && t < |s.pc| && Calls(c, s)
    requires HasCall(s.pc[t])
    requires s'.pc == s.pc[t := s'.pc[t]] && s.pc[t].op < |s.ops| && s'.ops == s.ops[s.pc[t].op := call]
    requires call.thread == t && call.req == s.ops[s.pc[t].op].req
    requires if HasCall(s'.pc[t]) then s'.pc[t].op == s.pc[t].op && CallAt(t, s'.pc[t], call)
             else call.returned && call.status != Active
    ensures Calls(c, s')
  {
  }

  /** A call that has returned is marked as executed; t has another call. */
  lemma CallsLogged(c: Config, s: State, s': State, t: Tid, o: OpId)
    requires ValidConfig(c) && Shape(c, s) && Shape(c, s') && t < |s.pc| && Calls(c, s)
    requires s'.pc == s.pc[t := s'.pc[t]] && HasCall(s.pc[t]) && HasCall(s'.pc[t])
    requires s'.pc[t].op == s.pc[t].op && s.pc[t].op < |s.ops| && CallAt(t, s'.pc[t], s.ops[s.pc[t].op])
    requires o < |s.ops| && s.ops[o].returned && s'.ops == SetStatus(s.ops, o, Logged(|s.log|))
    ensures Calls(c, s')
  {
  }

  lemma CallsOnStart(c: Config, s: State, s': State, t: Tid, req: nat, direct: bool)
    requires ValidConfig(c) && Shape(c, s) && t < |s.pc| && Calls(c, s) && StartCall(c, s, s', t, req, direct)
    ensures Shape(c, s') && Calls(c, s')
  {
  }

  lemma CallsOnCall(c: Config, s: State, s': State, t: Tid)
    requires ValidConfig(c) && Shape(c, s) && t < |s.pc| && Calls(c, s) && CallStep(c, s, s', t)
    ensures Shape(c, s') && Calls(c, s')
  {
    if s.pc[t].Leaving? {
      CallsOwn(c, s, s', t, s'.ops[s.pc[t].op]);
    } else {
      CallsFrame(c, s, s', t);
    }
  }

  lemma CallsOnEnqueue(c: Config, s: State, s': State, t: Tid)
    requires ValidConfig(c) && Shape(c, s) && t < |s.pc| && Calls(c, s) && EnqueueStep(c, s, s', t)
    ensures Shape(c, s') && Calls(c, s')
  {
    if s'.ops == s.ops {
      CallsFrame(c, s, s', t);
    } else {
      CallsOwn(c, s, s', t, s'.ops[s.pc[t].op]);
    }
  }

  lemma CallsOnGuard(c: Config, s: State, s': State, t: Tid)
    requires ValidConfig(c) && Shape(c, s) && t < |s.pc| && Calls(c, s) && GuardStep(c, s, s', t)
    ensures Shape(c, s') && Calls(c, s')
  {
    CallsFrame(c, s, s', t);
  }

  lemma CallsOnOwn(c: Config, s: State, s': State, t: Tid)
    requires ValidConfig(c) && Shape(c, s) && t < |s.pc| && Calls(c, s) && OwnStep(c, s, s', t)
    ensures Shape(c, s') && Calls(c, s')
  {
    if s'.ops == s.ops {
      CallsFrame(c, s, s', t);
    } else {
      CallsOwn(c, s, s', t, s'.ops[s.pc[t].op]);
    }
  }

  lemma CallsOnReader(c: Config, s: State, s': State, t: Tid)
    requires ValidConfig(c) && Shape(c, s) && t < |s.pc| && Calls(c, s) && ReaderStep(c, s, s', t)
    ensures Shape(c, s') && Calls(c, s')
  {
    CallsFrame(c, s, s', t);
  }

  lemma CallsOnFlush(c: Config, s: State, s': State, t: Tid)
    requires ValidConfig(c) && Shape(c, s) && t < |s.pc| && Queues(c, s) && Writers(c, s) && Calls(c, s) && Places(c, s)
    requires FlushStep(c, s, s', t)
    ensures Shape(c, s') && Calls(c, s')
  {
    if s.pc[t].fp.Entry? && s.pc[t].fp.f == Wrapper {
      CallsOnEntry(c, s, s', t);
    } else {
      CallsOnPlainFlush(c, s, s', t);
    }
  }

  lemma CallsOnPlainFlush(c: Config, s: State, s': State, t: Tid)
    requires ValidConfig(c) && Shape(c, s) && t < |s.pc| && Calls(c, s) && FlushStep(c, s, s', t)
    requires !(s.pc[t].fp.Entry? && s.pc[t].fp.f == Wrapper)
    ensures Shape(c, s') && Calls(c, s')
  {
    PlainFlush(c, s, s', t);
    CallsFrame(c, s, s', t);
  }

  /** Every access of flush other than running an entry leaves the calls alone. */
  lemma PlainFlush(c: Config, s: State, s': State, t: Tid)
    requires ValidConfig(c) && Shape(c, s) && t < |s.pc| && FlushStep(c, s, s', t)
    requires !(s.pc[t].fp.Entry? && s.pc[t].fp.f == Wrapper)
    ensures Shape(c, s') && s'.ops == s.ops && s'.log == s.log && s'.pc == s.pc[t := s'.pc[t]]
    ensures (s'.pc[t].Flush? || s'.pc[t].HUnlock?) && s'.pc[t].op == s.pc[t].op
  {
  }

  lemma CallsOnEntry(c: Config, s: State, s': State, t: Tid)
    requires ValidConfig(c) && Shape(c, s) && t < |s.pc| && Queues(c, s) && Writers(c, s) && Calls(c, s) && Places(c, s)
    requires s.pc[t].Flush? && s.pc[t].fp.Entry? && s.pc[t].fp.f == Wrapper && FlushStep(c, s, s', t)
    ensures Shape(c, s') && Calls(c, s')
  {
    EntryHasReturned(c, s, t);
    EntryFrame(c, s, s', t);
    CallsRan(c, s, s', t, s.q[c.node[t]].cells[s.pc[t].fp.index].op);
  }

  lemma CallsRan(c: Config, s: State, s': State, t: Tid, o: OpId)
    requires ValidConfig(c) && Shape(c, s) && Shape(c, s') && t < |s.pc| && Calls(c, s) && s.pc[t].Flush?
    requires s'.pc == s.pc[t := s'.pc[t]] && (s'.pc[t].Flush? || s'.pc[t].HUnlock?) && s'.pc[t].op == s.pc[t].op
    requires o < |s.ops| && s.ops[o].returned && s'.ops == SetStatus(s.ops, o, Logged(|s.log|))
    ensures Calls(c, s')
  {
    CallsLogged(c, s, s', t, o);
  }

  /** What running an entry does to the calls and the program points. */
  lemma EntryFrame(c: Config, s: State, s': State, t: Tid)
    requires ValidConfig(c) && Shape(c, s) && t < |s.pc| && s.pc[t].Flush? && s.pc[t].fp.Entry?
    requires s.pc[t].fp.f == Wrapper
    requires FlushStep(c, s, s', t) && s.pc[t].fp.index < |s.q[c.node[t]].cells|
    ensures Shape(c, s') && s'.pc == s.pc[t := s'.pc[t]] && (s'.pc[t].Flush? || s'.pc[t].HUnlock?)
    ensures s'.pc[t].op == s.pc[t].op
    ensures s'.ops == SetStatus(s.ops, s.q[c.node[t]].cells[s.pc[t].fp.index].op, Logged(|s.log|))
  {
  }

  /** A section taken from the queue belongs to a call whose thread has left delegate. */
  lemma EntryHasReturned(c: Config, s: State, t: Tid)
    requires ValidConfig(c) && Shape(c, s) && t < |s.pc| && Queues(c, s) && Writers(c, s) && Calls(c, s) && Places(c, s)
    requires s.pc[t].Flush? && s.pc[t].fp.Entry? && s.pc[t].fp.f == Wrapper
    ensures
      var q := s.q[c.node[t]];
      && q.pos < |q.res| && s.pc[t].fp.index < |q.cells|
      && var o := q.cells[s.pc[t].fp.index].op;
      && q.res[q.pos].op == Some(o)
      && IsQueued(c, s, c.node[t], q.pos, o) && s.ops[o].returned
  {
    EntryFacts(c, s, t);
    var q := s.q[c.node[t]];
    var o := q.res[q.pos].op.value;
    assert IsQueued(c, s, c.node[t], q.pos, o);
    if !s.ops[o].returned {
      assert false;
    }
  }

  // ---------- where a call is ----------

  lemma PlacesFrame(c: Config, s: State, s': State)
    requires ValidConfig(c) && Shape(c, s) && Shape(c, s') && Calls(c, s) && Calls(c, s') && Places(c, s)
    requires |s'.ops| == |s.ops| && s'.log == s.log
    requires forall o :: 0 <= o < |s.ops| ==>
      s'.ops[o].thread == s.ops[o].thread && s'.ops[o].req == s.ops[o].req && s'.ops[o].status == s.ops[o].status
    requires forall n :: 0 <= n < c.nodes ==> SamePlaces(s.q[n], s'.q[n])
    ensures Places(c, s')
  {
    forall o | 0 <= o < |s'.ops| && s'.ops[o].status.Queued?
      ensures InQueue(s'.q[c.node[s'.ops[o].thread]], s'.ops[o].status.k, o, s'.ops[o].req)
    {
      assert InQueue(s.q[c.node[s.ops[o].thread]], s.ops[o].status.k, o, s.ops[o].req);
    }
    forall n, k | 0 <= n < c.nodes && s'.q[n].pos <= k < |s'.q[n].res| && s'.q[n].res[k].op.Some?
      ensures IsQueued(c, s', n, k, s'.q[n].res[k].op.value)
    {
      assert IsQueued(c, s, n, k, s.q[n].res[k].op.value);
    }
  }

  /** The reservations still to be executed are the same, apart from their stage. */
  ghost predicate SamePlaces(q: Queue, q': Queue) {
    && q'.pos == q.pos && |q'.res| == |q.res|
    && (forall k :: 0 <= k < |q.res| ==> q'.res[k].op == q.res[k].op && q'.res[k].size == q.res[k].size)
  }

  lemma PlacesOnStart(c: Config, s: State, s': State, t: Tid, req: nat, direct: bool)
    requires ValidConfig(c) && Shape(c, s) && t < |s.pc| && Calls(c, s) && Places(c, s)
    requires StartCall(c, s, s', t, req, direct) && Shape(c, s') && Calls(c, s')
    ensures Places(c, s')
  {
    forall n, k | 0 <= n < c.nodes && s'.q[n].pos <= k < |s'.q[n].res| && s'.q[n].res[k].op.Some?
      ensures IsQueued(c, s', n, k, s'.q[n].res[k].op.value)
    {
      assert IsQueued(c, s, n, k, s.q[n].res[k].op.value);
    }
  }

  lemma PlacesOnCall(c: Config, s: State, s': State, t: Tid)
    requires ValidConfig(c) && Shape(c, s) && t < |s.pc| && Calls(c, s) && Places(c, s)
    requires CallStep(c, s, s', t) && Shape(c, s') && Calls(c, s')
    ensures Places(c, s')
  {
    PlacesFrame(c, s, s');
  }

  lemma PlacesOnGuard(c: Config, s: State, s': State, t: Tid)
    requires ValidConfig(c) && Shape(c, s) && t < |s.pc| && Calls(c, s) && Places(c, s)
    requires GuardStep(c, s, s', t) && Shape(c, s') && Calls(c, s')
    ensures Places(c, s')
  {
    PlacesFrame(c, s, s');
  }

  lemma PlacesOnReader(c: Config, s: State, s': State, t: Tid)
    requires ValidConfig(c) && Shape(c, s) && t < |s.pc| && Calls(c, s) && Places(c, s)
    requires ReaderStep(c, s, s', t) && Shape(c, s') && Calls(c, s')
    ensures Places(c, s')
  {
    PlacesFrame(c, s, s');
  }

  lemma StaysQueued(c: Config, s: State, s': State, t: Tid, r: Reservation, o: OpId)
    requires ValidConfig(c) && Shape(c, s) && Shape(c, s') && t < |s.pc| && Queues(c, s) && Calls(c, s) && Calls(c, s')
    requires Places(c, s)
    requires s'.q == s.q[c.node[t] := s'.q[c.node[t]]]
    requires s'.q[c.node[t]].res == s.q[c.node[t]].res + [r] && s'.q[c.node[t]].pos == s.q[c.node[t]].pos
    requires o < |s'.ops| == |s.ops|
    requires
      if r.op == Some(o) then
        && s'.ops[o].thread == t && s'.ops[o].req == r.size
        && s'.ops[o].status == Queued(|s.q[c.node[t]].res|)
             else s'.ops[o] == s.ops[o]
    requires s'.ops[o].status.Queued?
    ensures InQueue(s'.q[c.node[s'.ops[o].thread]], s'.ops[o].status.k, o, s'.ops[o].req)
  {
    if r.op != Some(o) {
      assert InQueue(s.q[c.node[s.ops[o].thread]], s.ops[o].status.k, o, s.ops[o].req);
    } else {
      assert Wf(c.entries, s.q[c.node[t]]);
    }
  }

  /** A reservation is appended; if it is an entry, its call moves into the queue. */
  lemma PlacesAppended(c: Config, s: State, s': State, t: Tid, r: Reservation)
    requires ValidConfig(c) && Shape(c, s) && Shape(c, s') && t < |s.pc| && Queues(c, s) && Calls(c, s) && Calls(c, s')
    requires Places(c, s)
    requires s'.log == s.log && s'.q == s.q[c.node[t] := s'.q[c.node[t]]]
    requires s'.q[c.node[t]].res == s.q[c.node[t]].res + [r] && s'.q[c.node[t]].pos == s.q[c.node[t]].pos
    requires
      if r.op.Some? then
        && r.op.value < |s.ops| && s.ops[r.op.value].thread == t && s.ops[r.op.value].req == r.size
        && s.ops[r.op.value].status == Active
        && s'.ops == SetStatus(s.ops, r.op.value, Queued(|s.q[c.node[t]].res|))
      else s'.ops == s.ops
    ensures Places(c, s')
  {
    var m := c.node[t];
    forall o | 0 <= o < |s'.ops| && s'.ops[o].status.Queued?
      ensures InQueue(s'.q[c.node[s'.ops[o].thread]], s'.ops[o].status.k, o, s'.ops[o].req)
    {
      StaysQueued(c, s, s', t, r, o);
    }
    forall n, k | 0 <= n < c.nodes && s'.q[n].pos <= k < |s'.q[n].res| && s'.q[n].res[k].op.Some?
      ensures IsQueued(c, s', n, k, s'.q[n].res[k].op.value)
    {
      if n != m || k < |s.q[m].res| {
        assert s'.q[n].res[k] == s.q[n].res[k];
        KeepsItsPlace(c, s, s', n, k, r.op, Queued(|s.q[m].res|));
      }
    }
  }

  /** An entry of a queue is still that of its call when another call, still with its thread, is queued. */
  lemma KeepsItsPlace(c: Config, s: State, s': State, n: nat, k: nat, op: Option<OpId>, st: Status)
    requires ValidConfig(c) && Shape(c, s) && Shape(c, s') && Calls(c, s) && Calls(c, s') && Places(c, s)
    requires n < c.nodes && s.q[n].pos <= k < |s.q[n].res| && s.q[n].res[k].op.Some?
    requires
      if op.Some? then
        op.value < |s.ops| && s.ops[op.value].status == Active && s'.ops == SetStatus(s.ops, op.value, st)
      else s'.ops == s.ops
    ensures IsQueued(c, s', n, k, s.q[n].res[k].op.value)
  {
    assert IsQueued(c, s, n, k, s.q[n].res[k].op.value);
  }

  lemma PlacesOnReserve(c: Config, s: State, s': State, t: Tid)
    requires ValidConfig(c) && Shape(c, s) && t < |s.pc| && Queues(c, s) && Calls(c, s) && Places(c, s)
    requires s.pc[t].Calling? && EnqueueStep(c, s, s', t) && Shape(c, s') && Calls(c, s')
    ensures Places(c, s')
  {
    var n := c.node[t];
    if |s'.q[n].res| == |s.q[n].res| {
      PlacesFrame(c, s, s');
    } else {
      PlacesAppended(c, s, s', t, s'.q[n].res[|s.q[n].res|]);
    }
  }

  lemma PlacesOnStore(c: Config, s: State, s': State, t: Tid)
    requires ValidConfig(c) && Shape(c, s) && t < |s.pc| && Calls(c, s) && Places(c, s)
    requires Writing(s.pc[t]) && EnqueueStep(c, s, s', t) && Shape(c, s') && Calls(c, s')
    ensures Places(c, s')
  {
    PlacesFrame(c, s, s');
  }

  /** A call that is in no queue is executed by its own thread. */
  lemma PlacesLogged(c: Config, s: State, s': State, o: OpId)
    requires ValidConfig(c) && Shape(c, s) && Shape(c, s') && Calls(c, s) && Calls(c, s') && Places(c, s)
    requires o < |s.ops| && s.ops[o].status == Active && s'.q == s.q
    requires s'.log == s.log + [o] && s'.ops == SetStatus(s.ops, o, Logged(|s.log|))
    ensures Places(c, s')
  {
    forall x | 0 <= x < |s'.ops| && s'.ops[x].status.Queued?
      ensures InQueue(s'.q[c.node[s'.ops[x].thread]], s'.ops[x].status.k, x, s'.ops[x].req)
    {
      assert InQueue(s.q[c.node[s.ops[x].thread]], s.ops[x].status.k, x, s.ops[x].req);
    }
    forall n, k | 0 <= n < c.nodes && s'.q[n].pos <= k < |s'.q[n].res| && s'.q[n].res[k].op.Some?
      ensures IsQueued(c, s', n, k, s'.q[n].res[k].op.value)
    {
      assert IsQueued(c, s, n, k, s.q[n].res[k].op.value);
    }
  }

  lemma PlacesOpened(c: Config, s: State, s': State, m: nat)
    requires ValidConfig(c) && Shape(c, s) && Shape(c, s') && Calls(c, s) && Calls(c, s') && Places(c, s)
    requires m < c.nodes && s.q[m].pos == |s.q[m].res| && s'.q == s.q[m := Open(s.q[m])]
    requires s'.log == s.log && s'.ops == s.ops
    ensures Places(c, s')
  {
    forall o | 0 <= o < |s'.ops| && s'.ops[o].status.Queued?
      ensures InQueue(s'.q[c.node[s'.ops[o].thread]], s'.ops[o].status.k, o, s'.ops[o].req)
    {
      assert InQueue(s.q[c.node[s.ops[o].thread]], s.ops[o].status.k, o, s.ops[o].req);
    }
    forall n, k | 0 <= n < c.nodes && s'.q[n].pos <= k < |s'.q[n].res| && s'.q[n].res[k].op.Some?
      ensures IsQueued(c, s', n, k, s'.q[n].res[k].op.value)
    {
      assert n != m;
      assert IsQueued(c, s, n, k, s.q[n].res[k].op.value);
    }
  }

  lemma PlacesOnOwn(c: Config, s: State, s': State, t: Tid)
    requires ValidConfig(c) && Shape(c, s) && t < |s.pc| && Locks(c, s) && Queues(c, s) && Calls(c, s) && Places(c, s)
    requires OwnStep(c, s, s', t) && Shape(c, s') && Calls(c, s')
    ensures Places(c, s')
  {
    if s.pc[t].OpenQueue? {
      assert s.mutex[c.node[t]] == Some(t);
      assert !Helped(c, s, c.node[t]);
      PlacesOpened(c, s, s', c.node[t]);
    } else if s.pc[t].point.Section? {
      PlacesLogged(c, s, s', s.pc[t].op);
    } else {
      PlacesFrame(c, s, s');
    }
  }

  /** Queued calls other than the one at the flush position stay in the queue when the flush moves on. */
  lemma StillQueued(c: Config, s: State, m: nat, o: OpId)
    requires ValidConfig(c) && Shape(c, s) && Calls(c, s) && Places(c, s) && m < c.nodes && s.q[m].pos < |s.q[m].res|
    requires o < |s.ops| && s.ops[o].status.Queued? && s.q[m].res[s.q[m].pos].op != Some(o)
    ensures InQueue(s.q[m := Advance(s.q[m])][c.node[s.ops[o].thread]], s.ops[o].status.k, o, s.ops[o].req)
  {
    assert InQueue(s.q[c.node[s.ops[o].thread]], s.ops[o].status.k, o, s.ops[o].req);
  }

  /** The entry at the flush position is executed and leaves the queue. */
  lemma PlacesPassed(c: Config, s: State, s': State, m: nat)
    requires ValidConfig(c) && Shape(c, s) && Shape(c, s') && Calls(c, s) && Calls(c, s') && Places(c, s)
    requires m < c.nodes && s.q[m].pos < |s.q[m].res| && s'.q == s.q[m := Advance(s.q[m])]
    requires
      var op := s.q[m].res[s.q[m].pos].op;
      if op.Some? then
        && op.value < |s.ops|
        && s'.log == s.log + [op.value] && s'.ops == SetStatus(s.ops, op.value, Logged(|s.log|))
      else s'.log == s.log && s'.ops == s.ops
    ensures Places(c, s')
  {
    var op := s.q[m].res[s.q[m].pos].op;
    if op.Some? {
      assert IsQueued(c, s, m, s.q[m].pos, op.value);
    }
    forall o | 0 <= o < |s'.ops| && s'.ops[o].status.Queued?
      ensures InQueue(s'.q[c.node[s'.ops[o].thread]], s'.ops[o].status.k, o, s'.ops[o].req)
    {
      StillQueued(c, s, m, o);
    }
    forall n, k | 0 <= n < c.nodes && s'.q[n].pos <= k < |s'.q[n].res| && s'.q[n].res[k].op.Some?
      ensures IsQueued(c, s', n, k, s'.q[n].res[k].op.value)
    {
      assert IsQueued(c, s, n, k, s.q[n].res[k].op.value);
    }
  }

  lemma PlacesOnFlush(c: Config, s: State, s': State, t: Tid)
    requires ValidConfig(c) && Shape(c, s) && t < |s.pc| && Queues(c, s) && Writers(c, s) && Calls(c, s) && Places(c, s)
    requires FlushStep(c, s, s', t) && Shape(c, s') && Calls(c, s')
    ensures Places(c, s')
  {
    if s.pc[t].fp.Entry? {
      EntryFacts(c, s, t);
      if s.pc[t].fp.f == Wrapper {
        EntryHasReturned(c, s, t);
      }
      PlacesPassed(c, s, s', c.node[t]);
    } else {
      PlacesOnOtherFlush(c, s, s', t);
    }
  }

  lemma PlacesOnOtherFlush(c: Config, s: State, s': State, t: Tid)
    requires ValidConfig(c) && Shape(c, s) && t < |s.pc| && Calls(c, s) && Places(c, s)
    requires FlushStep(c, s, s', t) && !s.pc[t].fp.Entry? && Shape(c, s') && Calls(c, s')
    ensures Places(c, s')
  {
    PlacesFrame(c, s, s');
  }
}
