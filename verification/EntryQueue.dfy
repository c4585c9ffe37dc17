/**
 * entry_queue: a delegation queue with entries of fixed size, used by any number of
 * enqueuers and, under the delegation lock, one thread at a time that opens and flushes it.
 * One step per access; it refines the same abstract tantrum queue as dual_buffer_queue.
 */
module EntryQueue {
  import opened Prelude
  import Spec = TantrumSpec

  /** enqueue. */
  datatype PC = Out | Check(op: OpId) | Add(op: OpId) | Write(op: OpId, index: nat) | Publish(op: OpId, index: nat)

  /** open, the helper's own section, and flush. */
  datatype HelperPC =
    | Idle
    | MarkOpen
    | Section
    | Load(done: nat)
    | Exchange(done: nat)
    | MarkClosed(done: nat, todo: nat)
    | Poll(index: nat, todo: nat, open: bool)
    | Call(index: nat, todo: nat, open: bool)
    | Clear(index: nat, todo: nat, open: bool)

  /**
   * counter, open (the flag closed == OPEN), fun (whether the pointer is set) and buf are the
   * program's variables. History: the operations of the period and their threads by index,
   * how many have been called, whether more can be accepted, and everything ever called.
   */
  datatype State = State(counter: nat, open: bool, fun: seq<bool>, buf: seq<OpId>, pc: seq<PC>, helper: HelperPC,
                         live: bool, ops: seq<OpId>, owner: seq<Tid>, pos: nat, log: seq<OpId>)

  ghost predicate Init(entries: nat, s: State) {
    && |s.fun| == |s.buf| == entries && s.counter == entries
    && !s.open && !s.live && s.helper == Idle
    && s.ops == [] && s.owner == [] && s.log == [] && s.pos == 0
    && (forall i :: 0 <= i < entries ==> !s.fun[i])
    && (forall t :: 0 <= t < |s.pc| ==> s.pc[t] == Out)
  }

  function Goto(s: State, t: Tid, pc: PC): State
    requires t < |s.pc|
  {
    s.(pc := s.pc[t := pc])
  }

  ghost predicate EnqueueStep(entries: nat, s: State, s': State, t: Tid)
    requires t < |s.pc|
  {
    match s.pc[t]
    case Out => exists op: OpId :: s' == Goto(s, t, Check(op))
    case Check(op) => s' == Goto(s, t, if s.open then Add(op) else Out)
    case Add(op) =>
      s' == if s.counter < entries
            then Goto(s, t, Write(op, s.counter))
                .(counter := s.counter + 1, ops := s.ops + [op], owner := s.owner + [t])
            else Goto(s, t, Out).(counter := s.counter + 1)
    case Write(op, index) => index < |s.buf| && s' == Goto(s, t, Publish(op, index)).(buf := s.buf[index := op])
    case Publish(_, index) => index < |s.fun| && s' == Goto(s, t, Out).(fun := s.fun[index := true])
  }

  /** Control flow of the two loops of flush. */
  function After(index: nat, todo: nat, open: bool): HelperPC {
    if index < todo then Poll(index, todo, open) else if open then Load(todo) else Idle
  }

  ghost predicate HelperStep(entries: nat, s: State, s': State) {
    match s.helper
    case Idle => s' == s.(counter := 0, live := true, ops := [], owner := [], pos := 0, helper := MarkOpen)
    case MarkOpen => s' == s.(open := true, helper := Section)
    case Section => s' == s.(helper := Load(0))
    case Load(done) =>
      s' == if s.counter == done then s.(helper := Exchange(done))
            else if s.counter >= entries then s.(live := false, helper := MarkClosed(done, entries))
            else s.(helper := After(done, s.counter, true))
    case Exchange(done) =>
      s' == s.(counter := entries, live := false, helper := MarkClosed(done, Min(s.counter, entries)))
    case MarkClosed(done, todo) => s' == s.(open := false, helper := After(done, todo, false))
    case Poll(index, todo, open) =>
      index < |s.fun| && s' == if s.fun[index] then s.(helper := Call(index, todo, open)) else s
    case Call(index, todo, open) =>
      index < |s.buf| && s' == s.(helper := Clear(index, todo, open), pos := s.pos + 1, log := s.log + [s.buf[index]])
    case Clear(index, todo, open) =>
      index < |s.fun| && s' == s.(fun := s.fun[index := false], helper := After(index + 1, todo, open))
  }

  ghost predicate Next(entries: nat, s: State, s': State) {
    HelperStep(entries, s, s') || exists t: Tid :: t < |s.pc| && EnqueueStep(entries, s, s', t)
  }

  ghost predicate Run(entries: nat, run: seq<State>) {
    |run| > 0 && Init(entries, run[0]) && forall i :: 0 <= i < |run| - 1 ==> Next(entries, run[i], run[i + 1])
  }

  // ---------- the invariant ----------

  ghost predicate Counting(entries: nat, s: State) {
    && |s.fun| == |s.buf| == entries && |s.owner| == |s.ops|
    && s.pos <= |s.ops| <= entries
    && (if s.live then |s.ops| == Min(s.counter, entries) else s.counter >= entries)
  }

  predicate Writing(pc: PC) {
    pc.Write? || pc.Publish?
  }

  /** An entry of the period that has not been called is visible, or its enqueuer is about to make it so. */
  ghost predicate EntryOk(s: State, i: nat)
    requires i < |s.ops| == |s.owner| && i < |s.fun| == |s.buf|
  {
    if s.fun[i] then s.buf[i] == s.ops[i]
    else s.owner[i] < |s.pc| && Writing(s.pc[s.owner[i]]) && s.pc[s.owner[i]].index == i
  }

  ghost predicate WriterOk(s: State, t: Tid)
    requires t < |s.pc| && |s.owner| == |s.ops| && |s.fun| == |s.buf|
  {
    Writing(s.pc[t]) ==>
      var pc := s.pc[t];
      && s.pos <= pc.index < |s.ops| && s.owner[pc.index] == t && s.ops[pc.index] == pc.op
      && pc.index < |s.fun| && !s.fun[pc.index]
      && (pc.Publish? ==> s.buf[pc.index] == pc.op)
  }

  ghost predicate Entries(s: State)
    requires |s.owner| == |s.ops| <= |s.fun| == |s.buf|
  {
    && (forall i :: s.pos <= i < |s.ops| ==> EntryOk(s, i))
    && (forall t :: 0 <= t < |s.pc| ==> WriterOk(s, t))
    && (forall i :: 0 <= i < |s.fun| && s.fun[i] ==> (s.pos <= i < |s.ops|) || (s.helper.Clear? && s.helper.index == i))
  }

  ghost predicate Phase(s: State) {
    match s.helper
    case Idle => !s.live && s.pos == |s.ops|
    case MarkOpen => s.live && s.pos == 0
    case Section => s.live && s.pos == 0
    case Load(done) => s.live && done == s.pos
    case Exchange(done) => s.live && done == s.pos
    case MarkClosed(done, todo) => !s.live && done == s.pos && todo == |s.ops|
    case Poll(index, todo, open) => index == s.pos && Draining(s, todo, open) && index < todo
    case Call(index, todo, open) =>
      index == s.pos && Draining(s, todo, open) && index < todo && index < |s.fun| && s.fun[index]
    case Clear(index, todo, open) => index + 1 == s.pos && Draining(s, todo, open)
  }

  ghost predicate Draining(s: State, todo: nat, open: bool) {
    s.pos <= todo <= |s.ops| && s.live == open && (!open ==> todo == |s.ops|)
  }

  ghost predicate Inv(entries: nat, s: State) {
    Counting(entries, s) && Entries(s) && Phase(s)
  }

  // ---------- every step keeps it ----------

  lemma AddKeeps(entries: nat, s: State, s': State, t: Tid)
    requires Inv(entries, s) && t < |s.pc| && s.pc[t].Add? && EnqueueStep(entries, s, s', t)
    ensures Inv(entries, s')
  {
    if s.counter < entries {
      AddEntries(s, s', t, s.pc[t].op);
    } else {
      PlainKeeps(entries, s, s', t);
    }
  }

  lemma AddEntries(s: State, s': State, t: Tid, op: OpId)
    requires |s.owner| == |s.ops| < |s.fun| == |s.buf| && Entries(s) && t < |s.pc| && !Writing(s.pc[t])
    requires s.pos <= |s.ops|
    requires s' == Goto(s, t, Write(op, |s.ops|)).(counter := s'.counter, ops := s.ops + [op], owner := s.owner + [t])
    requires !s.fun[|s.ops|]
    ensures Entries(s')
  {
    forall i | s'.pos <= i < |s'.ops| ensures EntryOk(s', i) {
      if i < |s.ops| {
        assert EntryOk(s, i);
      }
    }
    forall u | 0 <= u < |s'.pc| ensures WriterOk(s', u) {
      assert WriterOk(s, u);
    }
  }

  /** Writing and publishing happen to one entry, by its owner. */
  lemma StoreEntries(s: State, s': State, t: Tid)
    requires |s.owner| == |s.ops| <= |s.fun| == |s.buf| && Entries(s) && t < |s.pc| && Writing(s.pc[t])
    requires (s'.ops, s'.owner, s'.pos, s'.helper) == (s.ops, s.owner, s.pos, s.helper) && |s'.fun| == |s.fun|
    requires |s'.buf| == |s.buf|
    requires t < |s'.pc| && s'.pc == s.pc[t := s'.pc[t]] && s.pc[t].index < |s.fun|
    requires
      if s.pc[t].Write? then s'.pc[t] == Publish(s.pc[t].op,
          s.pc[t].index) && s'.fun == s.fun && s'.buf == s.buf[s.pc[t].index := s.pc[t].op]
      else s'.pc[t].Out? && s'.fun == s.fun[s.pc[t].index := true] && s'.buf == s.buf
    ensures Entries(s')
  {
    assert WriterOk(s, t);
    forall i | s'.pos <= i < |s'.ops| ensures EntryOk(s', i) {
      assert EntryOk(s, i);
    }
    forall u | 0 <= u < |s'.pc| ensures WriterOk(s', u) {
      assert WriterOk(s, u);
    }
  }

  lemma StoreKeeps(entries: nat, s: State, s': State, t: Tid)
    requires Inv(entries, s) && t < |s.pc| && Writing(s.pc[t]) && EnqueueStep(entries, s, s', t)
    ensures Inv(entries, s')
  {
    assert WriterOk(s, t);
    StoreEntries(s, s', t);
  }

  /** A step that changes neither the entries nor a writer's program point. */
  lemma EntriesFrame(s: State, s': State)
    requires |s.owner| == |s.ops| <= |s.fun| == |s.buf| && Entries(s) && !s.helper.Clear?
    requires (s'.ops, s'.owner, s'.pos, s'.fun, s'.buf) == (s.ops, s.owner, s.pos, s.fun, s.buf)
    requires |s'.pc| == |s.pc| && forall t :: 0 <= t < |s.pc| ==> s'.pc[t] == s.pc[t]
    ensures Entries(s')
  {
    forall i | s'.pos <= i < |s'.ops| ensures EntryOk(s', i) {
      assert EntryOk(s, i);
    }
    forall u | 0 <= u < |s'.pc| ensures WriterOk(s', u) {
      assert WriterOk(s, u);
    }
  }

  /** Loading and closing leave the entries alone. */
  lemma CountKeeps(entries: nat, s: State, s': State)
    requires Inv(entries, s) && HelperStep(entries, s, s') && !s.helper.Call? && !s.helper.Clear? && !s.helper.Idle?
    ensures Inv(entries, s')
  {
    EntriesFrame(s, s');
  }

  lemma PlainKeeps(entries: nat, s: State, s': State, t: Tid)
    requires Inv(entries, s) && t < |s.pc| && !Writing(s.pc[t]) && (s.pc[t].Add? ==> s.counter >= entries)
    requires EnqueueStep(entries, s, s', t)
    ensures Inv(entries, s')
  {
    PlainEntries(s, s', t);
  }

  lemma PlainEntries(s: State, s': State, t: Tid)
    requires |s.owner| == |s.ops| <= |s.fun| == |s.buf| && Entries(s) && t < |s.pc| == |s'.pc|
    requires (s'.ops, s'.owner, s'.pos, s'.fun, s'.buf, s'.helper) == (s.ops, s.owner, s.pos, s.fun, s.buf, s.helper)
    requires s'.pc == s.pc[t := s'.pc[t]] && !Writing(s.pc[t]) && !Writing(s'.pc[t])
    ensures Entries(s')
  {
    forall i | s'.pos <= i < |s'.ops| ensures EntryOk(s', i) {
      assert EntryOk(s, i);
    }
    forall u | 0 <= u < |s'.pc| ensures WriterOk(s', u) {
      assert WriterOk(s, u);
    }
  }

  lemma OpenKeeps(entries: nat, s: State, s': State)
    requires Inv(entries, s) && HelperStep(entries, s, s') && s.helper.Idle?
    ensures Inv(entries, s')
  {
    forall u | 0 <= u < |s'.pc| ensures WriterOk(s', u) {
      assert WriterOk(s, u);
    }
  }

  lemma DrainKeeps(entries: nat, s: State, s': State)
    requires Inv(entries, s) && HelperStep(entries, s, s') && (s.helper.Call? || s.helper.Clear?)
    ensures Inv(entries, s')
  {
    forall i | s'.pos <= i < |s'.ops| ensures EntryOk(s', i) {
      assert EntryOk(s, i);
    }
    forall u | 0 <= u < |s'.pc| ensures WriterOk(s', u) {
      assert WriterOk(s, u);
    }
  }

  lemma NextKeepsInv(entries: nat, s: State, s': State)
    requires Inv(entries, s) && Next(entries, s, s')
    ensures Inv(entries, s')
  {
    if HelperStep(entries, s, s') {
      if s.helper.Idle? {
        OpenKeeps(entries, s, s');
      } else if s.helper.Call? || s.helper.Clear? {
        DrainKeeps(entries, s, s');
      } else {
        CountKeeps(entries, s, s');
      }
    } else {
      var t: Tid :| t < |s.pc| && EnqueueStep(entries, s, s', t);
      if s.pc[t].Add? {
        AddKeeps(entries, s, s', t);
      } else if s.pc[t].Out? || s.pc[t].Check? {
        PlainKeeps(entries, s, s', t);
      } else {
        StoreKeeps(entries, s, s', t);
      }
    }
  }

  lemma {:induction false} RunKeepsInv(entries: nat, run: seq<State>, i: nat)
    requires Run(entries, run) && i < |run|
    ensures Inv(entries, run[i])
  {
    if i > 0 {
      RunKeepsInv(entries, run, i - 1);
      assert Next(entries, run[i - 1], run[i - 1 + 1]);
      NextKeepsInv(entries, run[i - 1], run[i]);
    }
  }

  // ---------- refinement ----------

  function Abstract(s: State): Spec.Tantrum<OpId> {
    Spec.Tantrum(s.live, if s.pos <= |s.ops| then s.ops[s.pos..] else [])
  }

  /** The event a step is; an operation is taken exactly when its wrapper is called, and accepted by its own thread. */
  ghost predicate Matches(s: State, s': State, e: Spec.Event<OpId>) {
    && Spec.StepBy(Abstract(s), e, Abstract(s'))
    && (if e.Taken? then s'.log == s.log + [e.op] else s'.log == s.log)
    && (e.Accepted? ==> exists t: Tid :: t < |s.pc| && s.pc[t] == Add(e.op) && |s'.pc| == |s.pc| && s'.pc[t].Write?)
  }

  lemma EnqueueRefines(entries: nat, s: State, s': State, t: Tid) returns (e: Spec.Event<OpId>)
    requires Inv(entries, s) && t < |s.pc| && EnqueueStep(entries, s, s', t)
    ensures Matches(s, s', e)
    ensures e.Accepted? <==> s.pc[t].Add? && s.counter < entries
  {
    e := Spec.Silent;
    if s.pc[t].Add? && s.counter < entries {
      e := Spec.Accepted(s.pc[t].op);
      assert s'.ops[s'.pos..] == s.ops[s.pos..] + [s.pc[t].op];
      assert s.pc[t] == Add(e.op);
    }
  }

  lemma HelperRefines(entries: nat, s: State, s': State) returns (e: Spec.Event<OpId>)
    requires Inv(entries, s) && HelperStep(entries, s, s')
    ensures Matches(s, s', e)
  {
    if s.helper.Call? {
      e := CallRefines(entries, s, s');
    } else if s.helper.Idle? {
      e := Spec.Opened;
    } else if s.live && !s'.live {
      e := Spec.Shut;
    } else {
      e := Spec.Silent;
    }
  }

  /** Calling an entry takes the oldest operation. */
  lemma CallRefines(entries: nat, s: State, s': State) returns (e: Spec.Event<OpId>)
    requires Inv(entries, s) && HelperStep(entries, s, s') && s.helper.Call?
    ensures Matches(s, s', e)
  {
    var index := s.helper.index;
    assert EntryOk(s, index);
    e := Spec.Taken(s.buf[index]);
    assert s.ops[s.pos..][1..] == s.ops[s.pos + 1..];
  }

  lemma NextRefines(entries: nat, s: State, s': State) returns (e: Spec.Event<OpId>)
    requires Inv(entries, s) && Next(entries, s, s')
    ensures Matches(s, s', e)
  {
    if HelperStep(entries, s, s') {
      e := HelperRefines(entries, s, s');
    } else {
      var t: Tid :| t < |s.pc| && EnqueueStep(entries, s, s', t);
      e := EnqueueRefines(entries, s, s', t);
    }
  }

  ghost predicate History(run: seq<State>, events: seq<Spec.Event<OpId>>) {
    |events| == |run| - 1 && forall i :: 0 <= i < |events| ==> Matches(run[i], run[i + 1], events[i])
  }

  /** Refinement: every run has an abstract history, and what it takes is what the flushes call. */
  lemma {:induction false} RunRefines(entries: nat, run: seq<State>) returns (events: seq<Spec.Event<OpId>>)
    requires Run(entries, run)
    ensures History(run, events)
    ensures Spec.TakenOf(events) == run[|run| - 1].log
    decreases |run|
  {
    events := [];
    var m := |run| - 1;
    if m > 0 {
      var before := RunRefines(entries, run[..m]);
      RunKeepsInv(entries, run, m - 1);
      assert Next(entries, run[m - 1], run[m - 1 + 1]);
      var e := NextRefines(entries, run[m - 1], run[m]);
      events := before + [e];
      assert events[..m - 1] == before;
      forall i | 0 <= i < |events| ensures Matches(run[i], run[i + 1], events[i]) {
        if i < m - 1 {
          assert Matches(run[..m][i], run[..m][i + 1], before[i]);
        }
      }
    }
  }

  /**
   * Over any run the flushes call what was accepted, in the order of acceptance, all of it by the time the
   * queue is idle.
   */
  lemma CalledInOrder(entries: nat, run: seq<State>) returns (events: seq<Spec.Event<OpId>>)
    requires Run(entries, run)
    ensures History(run, events)
    ensures run[|run| - 1].log + Abstract(run[|run| - 1]).pending == Spec.AcceptedOf(events)
    ensures run[|run| - 1].helper.Idle? ==> run[|run| - 1].log == Spec.AcceptedOf(events)
  {
    events := RunRefines(entries, run);
    var states := seq(|run|, i requires 0 <= i < |run| => Abstract(run[i]));
    forall i | 0 <= i < |events| ensures Spec.StepBy(states[i], events[i], states[i + 1]) {
      assert Matches(run[i], run[i + 1], events[i]);
    }
    Spec.FirstInFirstOut(states, events);
    RunKeepsInv(entries, run, |run| - 1);
  }

  /** Between flush and open nobody is writing and every slot is free, whatever enqueuers saw of the flag. */
  lemma IdleIsClean(entries: nat, run: seq<State>, i: nat, t: Tid)
    requires Run(entries, run) && i < |run| && run[i].helper.Idle? && t < |run[i].pc|
    ensures !Writing(run[i].pc[t]) && run[i].counter >= entries
    ensures forall k :: 0 <= k < |run[i].fun| ==> !run[i].fun[k]
  {
    RunKeepsInv(entries, run, i);
    assert WriterOk(run[i], t);
  }

  /** The flush never waits for a slot that nobody will fill. */
  lemma AwaitedSlotHasWriter(entries: nat, run: seq<State>, i: nat) returns (t: Tid)
    requires Run(entries, run) && i < |run| && run[i].helper.Poll? && run[i].helper.index < |run[i].fun|
    requires !run[i].fun[run[i].helper.index]
    ensures t < |run[i].pc| && Writing(run[i].pc[t]) && run[i].pc[t].index == run[i].helper.index
  {
    RunKeepsInv(entries, run, i);
    assert EntryOk(run[i], run[i].helper.index);
    t := run[i].owner[run[i].helper.index];
  }
}
