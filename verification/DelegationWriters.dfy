/** Every step keeps the correspondence between threads in flight and unpublished reservations. */
module DelegationWriters {
  import opened Prelude
  import opened TantrumQueue
  import opened Delegation
  import opened DelegationInvariant
  import opened DelegationQueues

  /** No reservation is added, executed or staged, and t is not in flight. */
  lemma WritersFrame(c: Config, s: State, s': State, t: Tid)
    requires ValidConfig(c) && Shape(c, s) && Shape(c, s') && t < |s.pc| && Writers(c, s)
    requires s'.pc == s.pc[t := s'.pc[t]] && !Writing(s.pc[t]) && !Writing(s'.pc[t])
    requires forall n :: 0 <= n < c.nodes ==> s'.q[n].res == s.q[n].res && s'.q[n].pos == s.q[n].pos
    ensures Writers(c, s')
  {
  }

  lemma WritersOnStart(c: Config, s: State, s': State, t: Tid, req: nat, direct: bool)
    requires ValidConfig(c) && Shape(c, s) && t < |s.pc| && Writers(c, s) && StartCall(c, s, s', t, req, direct)
    ensures Shape(c, s') && Writers(c, s')
  {
    WritersFrame(c, s, s', t);
  }

  lemma WritersOnCall(c: Config, s: State, s': State, t: Tid)
    requires ValidConfig(c) && Shape(c, s) && t < |s.pc| && Writers(c, s) && CallStep(c, s, s', t)
    ensures Shape(c, s') && Writers(c, s')
  {
    WritersFrame(c, s, s', t);
  }

  lemma WritersOnReader(c: Config, s: State, s': State, t: Tid)
    requires ValidConfig(c) && Shape(c, s) && t < |s.pc| && Writers(c, s) && ReaderStep(c, s, s', t)
    ensures Shape(c, s') && Writers(c, s')
  {
    WritersFrame(c, s, s', t);
  }

  lemma WritersOnGuard(c: Config, s: State, s': State, t: Tid)
    requires ValidConfig(c) && Shape(c, s) && t < |s.pc| && Writers(c, s) && GuardStep(c, s, s', t)
    ensures Shape(c, s') && Writers(c, s')
  {
    WritersFrame(c, s, s', t);
  }

  /** Opening: the previous period has no reservation left, so nobody is in flight. */
  lemma WritersOnOwn(c: Config, s: State, s': State, t: Tid)
    requires ValidConfig(c) && Shape(c, s) && t < |s.pc| && Locks(c, s) && Queues(c, s) && Writers(c, s)
    requires OwnStep(c, s, s', t)
    ensures Shape(c, s') && Writers(c, s')
  {
    if s.pc[t].OpenQueue? {
      assert s.mutex[c.node[t]] == Some(t);
      assert !Helped(c, s, c.node[t]);
    } else {
      WritersFrame(c, s, s', t);
    }
  }

  lemma WritersOnReserve(c: Config, s: State, s': State, t: Tid)
    requires ValidConfig(c) && Shape(c, s) && t < |s.pc| && Queues(c, s) && Writers(c, s)
    requires s.pc[t].Calling? && EnqueueStep(c, s, s', t)
    ensures Shape(c, s') && Writers(c, s')
  {
    var n := c.node[t];
    if |s'.q[n].res| == |s.q[n].res| {
      WritersFrame(c, s, s', t);
    } else {
      WritersAppended(c, s, s', t, s'.q[n].res[|s.q[n].res|]);
    }
  }

  lemma WritersAppended(c: Config, s: State, s': State, t: Tid, r: Reservation)
    requires ValidConfig(c) && Shape(c, s) && Shape(c, s') && t < |s.pc| && Queues(c, s) && Writers(c, s)
    requires s'.pc == s.pc[t := s'.pc[t]] && !Writing(s.pc[t]) && r.owner == t
    requires s'.q == s.q[c.node[t] := s'.q[c.node[t]]]
    requires s'.q[c.node[t]].res == s.q[c.node[t]].res + [r] && s'.q[c.node[t]].pos == s.q[c.node[t]].pos
    requires Owns(c.entries, s'.pc[t], |s.q[c.node[t]].res|, r)
    ensures Writers(c, s')
  {
  }

  /** t moves its own reservation on. */
  lemma WritersStaged(c: Config, s: State, s': State, t: Tid)
    requires ValidConfig(c) && Shape(c, s) && Shape(c, s') && t < |s.pc| && Writers(c, s)
    requires s'.pc == s.pc[t := s'.pc[t]] && Writing(s.pc[t])
    requires s.pc[t].k < |s.q[c.node[t]].res|
    requires s'.q == s.q[c.node[t] := s'.q[c.node[t]]] && s'.q[c.node[t]].pos == s.q[c.node[t]].pos
    requires
      var r := s.q[c.node[t]].res[s.pc[t].k];
      if Writing(s'.pc[t]) then
        && s'.q[c.node[t]].res == s.q[c.node[t]].res[s.pc[t].k := r.(stage := Written)]
        && Owns(c.entries, s'.pc[t], s.pc[t].k, r.(stage := Written))
      else s'.q[c.node[t]].res == s.q[c.node[t]].res[s.pc[t].k := r.(stage := Published)]
    ensures Writers(c, s')
  {
  }

  lemma WritersOnStore(c: Config, s: State, s': State, t: Tid)
    requires ValidConfig(c) && Shape(c, s) && t < |s.pc| && Writers(c, s)
    requires Writing(s.pc[t]) && EnqueueStep(c, s, s', t)
    ensures Shape(c, s') && Writers(c, s')
  {
    WritersStaged(c, s, s', t);
  }

  lemma WritersOnFlush(c: Config, s: State, s': State, t: Tid)
    requires ValidConfig(c) && Shape(c, s) && t < |s.pc| && Queues(c, s) && Writers(c, s) && FlushStep(c, s, s', t)
    ensures Shape(c, s') && Writers(c, s')
  {
    if s.pc[t].fp.Entry? {
      WritersOnEntry(c, s, s', t);
    } else {
      WritersFrame(c, s, s', t);
    }
  }

  /** The flush only passes published reservations. */
  lemma WritersPassed(c: Config, s: State, s': State, t: Tid)
    requires ValidConfig(c) && Shape(c, s) && Shape(c, s') && t < |s.pc| && Writers(c, s)
    requires s'.pc == s.pc[t := s'.pc[t]] && !Writing(s.pc[t]) && !Writing(s'.pc[t])
    requires s'.q == s.q[c.node[t] := Advance(s.q[c.node[t]])]
    requires s.q[c.node[t]].pos < |s.q[c.node[t]].res| && s.q[c.node[t]].res[s.q[c.node[t]].pos].stage == Published
    ensures Writers(c, s')
  {
  }

  lemma WritersOnEntry(c: Config, s: State, s': State, t: Tid)
    requires ValidConfig(c) && Shape(c, s) && t < |s.pc| && Queues(c, s) && Writers(c, s) && FlushStep(c, s, s', t)
    requires s.pc[t].Flush? && s.pc[t].fp.Entry?
    ensures Shape(c, s') && Writers(c, s')
  {
    EntryFacts(c, s, t);
    WritersPassed(c, s, s', t);
  }
}
