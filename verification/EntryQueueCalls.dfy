/** entry_queue call by call: what the closed flag says, what enqueue answers, and that a flush ends. */
module EntryQueueCalls {
  import opened Prelude
  import opened EntryQueue

  // ---------- the flag ----------

  /** From the second store of open to the store of CLOSED in flush. */
  predicate MarkedOpen(h: HelperPC) {
    match h
    case Idle => false
    case MarkOpen => false
    case Section => true
    case Load(_) => true
    case Exchange(_) => true
    case MarkClosed(_, _) => true
    case Poll(_, _, open) => open
    case Call(_, _, open) => open
    case Clear(_, _, open) => open
  }

  lemma {:induction false} RunKeepsFlag(entries: nat, run: seq<State>, i: nat)
    requires Run(entries, run) && i < |run|
    ensures run[i].open <==> MarkedOpen(run[i].helper)
  {
    if i > 0 {
      RunKeepsFlag(entries, run, i - 1);
      assert Next(entries, run[i - 1], run[i - 1 + 1]);
      NextKeepsFlag(entries, run[i - 1], run[i]);
    }
  }

  lemma NextKeepsFlag(entries: nat, s: State, s': State)
    requires Next(entries, s, s') && (s.open <==> MarkedOpen(s.helper))
    ensures s'.open <==> MarkedOpen(s'.helper)
  {
    if HelperStep(entries, s, s') {
    } else {
      var t: Tid :| t < |s.pc| && EnqueueStep(entries, s, s', t);
      assert s'.open == s.open && s'.helper == s.helper;
    }
  }

  /** The flag is OPEN from the end of open to the close in flush, and so CLOSED whenever no helper is at work. */
  lemma FlagFollowsHelper(entries: nat, run: seq<State>, i: nat)
    requires Run(entries, run) && i < |run|
    ensures run[i].open <==> MarkedOpen(run[i].helper)
    ensures run[i].helper.Idle? ==> !run[i].open
    ensures run[i].open ==> run[i].live || run[i].counter >= entries
  {
    RunKeepsFlag(entries, run, i);
    RunKeepsInv(entries, run, i);
  }

  // ---------- one call of enqueue ----------

  lemma OnlyMover(entries: nat, s: State, s': State, t: Tid)
    requires t < |s.pc| && EnqueueStep(entries, s, s', t)
    ensures |s'.pc| == |s.pc| && s'.pc == s.pc[t := s'.pc[t]]
  {
  }

  lemma HelperMovesNobody(entries: nat, s: State, s': State)
    requires HelperStep(entries, s, s')
    ensures s'.pc == s.pc
  {
  }

  /** A call that loads CLOSED returns at once and changes nothing else. */
  lemma ClosedCallReturns(entries: nat, s: State, s': State, t: Tid, op: OpId)
    requires Next(entries, s, s') && t < |s.pc| && s.pc[t] == Check(op) && t < |s'.pc| && s'.pc[t] != Check(op)
    requires !s.open
    ensures s' == Goto(s, t, Out)
  {
    MoverIs(entries, s, s', t);
  }

  /** A call that loads OPEN goes on to the addition. */
  lemma OpenCallGoesOn(entries: nat, s: State, s': State, t: Tid, op: OpId)
    requires Next(entries, s, s') && t < |s.pc| && s.pc[t] == Check(op) && t < |s'.pc| && s'.pc[t] != Check(op)
    requires s.open
    ensures s' == Goto(s, t, Add(op))
  {
    MoverIs(entries, s, s', t);
  }

  lemma MoverIs(entries: nat, s: State, s': State, t: Tid)
    requires Next(entries, s, s') && t < |s.pc| && t < |s'.pc| && s'.pc[t] != s.pc[t]
    ensures EnqueueStep(entries, s, s', t)
  {
    if HelperStep(entries, s, s') {
      HelperMovesNobody(entries, s, s');
      assert false;
    } else {
      var u: Tid :| u < |s.pc| && EnqueueStep(entries, s, s', u);
      OnlyMover(entries, s, s', u);
    }
  }

  /** In step m thread t adds one to the counter: its operation is accepted exactly if the counter was below ENTRIES. */
  ghost predicate AddsAt(entries: nat, run: seq<State>, m: nat, t: Tid, op: OpId) {
    && m + 1 < |run| && t < |run[m].pc| && run[m].pc[t] == Add(op) && t < |run[m + 1].pc|
    && run[m + 1].counter == run[m].counter + 1
    && (if run[m].counter < entries then
          run[m + 1].pc[t] == Write(op, run[m].counter) && run[m + 1].ops == run[m].ops + [op]
        else run[m + 1].pc[t] == Out && run[m + 1].ops == run[m].ops)
  }

  ghost predicate AddedWithin(entries: nat, run: seq<State>, i: nat, j: nat, t: Tid, op: OpId) {
    exists m: nat :: i <= m < j && AddsAt(entries, run, m, t, op)
  }

  /** A call that is past the check has added to the counter by the time it is at any later point. */
  lemma {:induction false} GoesThroughAdd(entries: nat, run: seq<State>, i: nat, j: nat, s: State, t: Tid, op: OpId)
    requires Run(entries, run) && i <= j < |run| && s == run[j]
    requires t < |run[i].pc| && run[i].pc[t] == Add(op)
    ensures t < |s.pc| && (s.pc[t] == Add(op) || AddedWithin(entries, run, i, j, t, op))
    decreases j
  {
    if i < j {
      var w := run[j - 1];
      GoesThroughAdd(entries, run, i, j - 1, w, t, op);
      assert Next(entries, run[j - 1], run[j - 1 + 1]);
      SameThreads(entries, w, s);
      if w.pc[t] == Add(op) {
        if s.pc[t] != Add(op) {
          MoverIs(entries, w, s, t);
          assert AddsAt(entries, run, j - 1, t, op);
        }
      } else {
        var m: nat :| i <= m < j - 1 && AddsAt(entries, run, m, t, op);
      }
    }
  }

  lemma SameThreads(entries: nat, s: State, s': State)
    requires Next(entries, s, s')
    ensures |s'.pc| == |s.pc|
  {
    if HelperStep(entries, s, s') {
      HelperMovesNobody(entries, s, s');
    } else {
      var t: Tid :| t < |s.pc| && EnqueueStep(entries, s, s', t);
      OnlyMover(entries, s, s', t);
    }
  }

  /**
   * A whole call: having loaded the flag in step i, it returns at once if it was CLOSED; if it was OPEN it has, by the
   * time it returns, added to the counter, and been accepted exactly if it found the counter below ENTRIES.
   */
  lemma CallAnswers(entries: nat, run: seq<State>, i: nat, j: nat, t: Tid, op: OpId)
    requires Run(entries, run) && i < j < |run| && t < |run[i].pc| && run[i].pc[t] == Check(op)
    requires t < |run[i + 1].pc| && run[i + 1].pc[t] != Check(op) && t < |run[j].pc| && run[j].pc[t] == Out
    ensures if run[i].open then AddedWithin(entries, run, i + 1, j, t, op) else run[i + 1] == Goto(run[i], t, Out)
  {
    assert Next(entries, run[i], run[i + 1]);
    if run[i].open {
      OpenCallGoesOn(entries, run[i], run[i + 1], t, op);
      GoesThroughAdd(entries, run, i + 1, j, run[j], t, op);
    } else {
      ClosedCallReturns(entries, run[i], run[i + 1], t, op);
    }
  }

  /** A call on an open queue with a free entry that is not disturbed is accepted and published in its four steps. */
  lemma UndisturbedCall(entries: nat, s0: State, s1: State, s2: State, s3: State, s4: State, t: Tid, op: OpId)
    requires Inv(entries, s0) && t < |s0.pc| && s0.pc[t] == Check(op) && s0.open && s0.counter < entries
    requires EnqueueStep(entries, s0, s1, t) && t < |s1.pc| && EnqueueStep(entries, s1, s2, t)
    requires t < |s2.pc| && EnqueueStep(entries, s2, s3, t) && t < |s3.pc| && EnqueueStep(entries, s3, s4, t)
    ensures s4 == s0.(counter := s0.counter + 1, fun := s0.fun[s0.counter := true], buf := s0.buf[s0.counter := op],
                      ops := s0.ops + [op], owner := s0.owner + [t])
                  .(pc := s0.pc[t := Out])
  {
    assert s1.pc == s0.pc[t := Add(op)];
    assert s2.pc == s0.pc[t := Write(op, s0.counter)];
    assert s3.pc == s0.pc[t := Publish(op, s0.counter)];
  }

  // ---------- flush ----------

  /** In step k the flush loads a counter that has not moved since, everything accepted having been called. */
  ghost predicate FoundNothing(run: seq<State>, k: nat, done: nat) {
    k + 1 < |run| && run[k].helper == Load(done) && run[k].counter == done && run[k].pos == |run[k].ops|
  }

  lemma {:induction false} ExchangesAfter(entries: nat, run: seq<State>, j: nat)
    requires Run(entries, run) && j < |run| && run[j].helper.Exchange?
    ensures exists k: nat :: k < j && FoundNothing(run, k, run[j].helper.done)
    decreases j
  {
    if j > 0 {
      RunKeepsInv(entries, run, j - 1);
      assert Next(entries, run[j - 1], run[j - 1 + 1]);
      if run[j - 1].helper == run[j].helper {
        ExchangesAfter(entries, run, j - 1);
        var k: nat :| k < j - 1 && FoundNothing(run, k, run[j].helper.done);
      } else {
        HelperMoved(entries, run[j - 1], run[j]);
        assert FoundNothing(run, j - 1, run[j].helper.done);
      }
    }
  }

  lemma HelperMoved(entries: nat, s: State, s': State)
    requires Next(entries, s, s') && s'.helper != s.helper
    ensures HelperStep(entries, s, s')
  {
  }

  /** The queue is closed only because it is full, or because the flush has found no more work. */
  lemma ClosedForAReason(entries: nat, run: seq<State>, j: nat)
    requires Run(entries, run) && j + 1 < |run| && run[j].live && !run[j + 1].live
    ensures run[j].counter >= entries
      || (run[j].helper.Exchange? && exists k: nat :: k < j && FoundNothing(run, k, run[j].helper.done))
  {
    assert Next(entries, run[j], run[j + 1]);
    LiveEnds(entries, run[j], run[j + 1]);
    if run[j].helper.Exchange? {
      ExchangesAfter(entries, run, j);
    }
  }

  lemma LiveEnds(entries: nat, s: State, s': State)
    requires Next(entries, s, s') && s.live
    ensures s'.live || s.helper.Exchange? || s.counter >= entries
  {
  }

  function Stage(h: HelperPC): nat {
    if h.Idle? then 0 else if h.MarkOpen? then 3 else if h.Section? then 2 else 1
  }

  /** Whether the flush may still find new entries. */
  function MayGrow(h: HelperPC): nat {
    match h
    case Load(_) => 1
    case Exchange(_) => 1
    case Poll(_, _, open) => if open then 1 else 0
    case Call(_, _, open) => if open then 1 else 0
    case Clear(_, _, open) => if open then 1 else 0
    case _ => 0
  }

  function Left(entries: nat, h: HelperPC): int {
    match h
    case Load(done) => entries - done
    case Exchange(done) => entries - done
    case MarkClosed(done, _) => entries - done
    case Poll(index, _, _) => entries - index
    case Call(index, _, _) => entries - index
    case Clear(index, _, _) => entries - index
    case _ => 0
  }

  function Sub(h: HelperPC): nat {
    match h
    case Load(_) => 5
    case Exchange(_) => 4
    case MarkClosed(_, _) => 3
    case Poll(_, _, _) => 2
    case Call(_, _, _) => 1
    case _ => 0
  }

  /** The helper waits for an entry that its enqueuer has not published yet. */
  predicate Waiting(s: State) {
    s.helper.Poll? && s.helper.index < |s.fun| && !s.fun[s.helper.index]
  }

  ghost predicate Closer(entries: nat, h: HelperPC, h': HelperPC) {
    && 0 <= Left(entries, h')
    && (|| Stage(h') < Stage(h)
        || (Stage(h') == Stage(h) && MayGrow(h') < MayGrow(h))
        || (Stage(h') == Stage(h) && MayGrow(h') == MayGrow(h) && Left(entries, h') < Left(entries, h))
        || (&& Stage(h') == Stage(h) && MayGrow(h') == MayGrow(h)
            && Left(entries, h') == Left(entries, h) && Sub(h') < Sub(h)))
  }

  /**
   * A flush ends: unless it waits for an unpublished entry, each of the helper's steps makes a measure smaller that
   * enqueuers do not touch, however many entries they add meanwhile. Having loaded a full counter it goes on to
   * close the queue before it calls anything more.
   */
  lemma HelperAdvances(entries: nat, s: State, s': State)
    requires Inv(entries, s) && HelperStep(entries, s, s') && !s.helper.Idle? && !Waiting(s)
    ensures Closer(entries, s.helper, s'.helper)
    ensures s.helper.Load? && s.counter >= entries ==>
      s'.helper == Exchange(s.helper.done) || (s'.helper == MarkClosed(s.helper.done, entries) && !s'.live)
  {
  }
}
