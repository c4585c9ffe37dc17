/**
 * dual_buffer_queue inside the running protocol refines the abstract tantrum queue, with
 * fetch-and-add and with compare-and-swap, at every interleaving: every step of every
 * thread is one abstract event of each node's queue.
 */
module TantrumRefinement {
  import opened Prelude
  import opened TantrumQueue
  import opened Delegation
  import opened DelegationInvariant
  import opened DelegationQueues
  import opened DelegationSteps
  import opened DelegationTheorems
  import Spec = TantrumSpec

  function OpsOf(res: seq<Reservation>): seq<OpId> {
    if res == [] then []
    else (if res[0].op.Some? then [res[0].op.value] else []) + OpsOf(res[1..])
  }

  /** Padding entries and the progress of writers are invisible. */
  function Abstract(q: Queue): Spec.Tantrum<OpId> {
    Spec.Tantrum(q.live, if q.pos <= |q.res| then OpsOf(q.res[q.pos..]) else [])
  }

  lemma {:induction false} OpsAppend(res: seq<Reservation>, r: Reservation)
    ensures OpsOf(res + [r]) == OpsOf(res) + if r.op.Some? then [r.op.value] else []
  {
    if res == [] {
      assert (res + [r])[1..] == [];
    } else {
      OpsAppend(res[1..], r);
      assert (res + [r])[1..] == res[1..] + [r];
    }
  }

  lemma {:induction false} OpsSame(res: seq<Reservation>, res': seq<Reservation>)
    requires |res'| == |res| && forall k :: 0 <= k < |res| ==> res'[k].op == res[k].op
    ensures OpsOf(res') == OpsOf(res)
  {
    if res != [] {
      OpsSame(res[1..], res'[1..]);
    }
  }

  lemma ReserveRefines(entries: nat, q: Queue, t: Tid, op: OpId, req: nat)
    requires Wf(entries, q) && 1 <= req <= entries
    ensures
      Spec.StepBy(Abstract(q), if Fits(entries, q.counter, req) then Spec.Accepted(op)
          else Spec.Silent, Abstract(TantrumQueue.Reserve(entries, q, t, op, req)))
  {
    var q' := TantrumQueue.Reserve(entries, q, t, op, req);
    if q.counter < entries {
      var r := q'.res[|q.res|];
      OpsAppend(q.res[q.pos..], r);
      assert q'.res[q.pos..] == q.res[q.pos..] + [r];
    }
  }

  lemma StageRefines(q: Queue, q': Queue, k: nat, stage: Stage)
    requires k < |q.res| && q.pos <= |q.res| && q'.res == q.res[k := q.res[k].(stage := stage)] && q'.pos == q.pos
    requires q'.live == q.live
    ensures Abstract(q') == Abstract(q)
  {
    OpsSame(q.res[q.pos..], q'.res[q.pos..]);
  }

  lemma AdvanceRefines(q: Queue)
    requires q.pos < |q.res|
    ensures
      var r := q.res[q.pos];
      Spec.StepBy(Abstract(q), if r.op.Some? then Spec.Taken(r.op.value) else Spec.Silent, Abstract(Advance(q)))
  {
    assert q.res[q.pos..][1..] == q.res[q.pos + 1..];
  }

  /**
   * The event of the queue of node n that a step of thread t is. It accepts the thread's own operation, and it
   * takes exactly what a flush of this queue appends to the log; each take moves the flush on by one entry.
   */
  ghost predicate Matches(c: Config, s: State, s': State, t: Tid, n: nat, e: Spec.Event<OpId>)
    requires ValidConfig(c) && Shape(c, s) && t < |s.pc| && n < |s.q| && n < |s'.q|
  {
    && Spec.StepBy(Abstract(s.q[n]), e, Abstract(s'.q[n]))
    && (e.Accepted? ==> c.node[t] == n && s.pc[t].Calling? && e.op == s.pc[t].op)
    && (e.Accepted? ==> |s'.pc| == |s.pc| && s'.pc[t].Storing?)
    && (e.Taken? ==> c.node[t] == n && s.pc[t].Flush?)
    && (c.node[t] == n && s.pc[t].Flush? ==> s'.log == s.log + if e.Taken? then [e.op] else [])
    && (e.Opened? || s'.q[n].pos >= s.q[n].pos + if e.Taken? then 1 else 0)
  }

  /** Program points whose step may change the queue of the thread's node. */
  predicate UsesQueue(pc: PC) {
    pc.Calling? || pc.Storing? || pc.Padding? || pc.OpenQueue? || pc.Flush?
  }

  lemma OthersSilent(c: Config, s: State, s': State, t: Tid, n: nat)
    requires ValidConfig(c) && Shape(c, s) && t < |s.pc| && n < c.nodes && ThreadStep(c, s, s', t)
    requires !(n == c.node[t] && UsesQueue(s.pc[t]))
    ensures |s'.q| == |s.q| && s'.q[n] == s.q[n]
  {
    if EnqueueStep(c, s, s', t) {
    } else if FlushStep(c, s, s', t) {
    } else if OwnStep(c, s, s', t) {
    } else if GuardStep(c, s, s', t) {
    } else if ReaderStep(c, s, s', t) {
    } else if CallStep(c, s, s', t) {
    } else {
    }
  }

  lemma EnqueueMatches(c: Config, s: State, s': State, t: Tid) returns (e: Spec.Event<OpId>)
    requires ValidConfig(c) && Shape(c, s) && Queues(c, s) && Writers(c, s) && Calls(c, s) && t < |s.pc|
    requires EnqueueStep(c, s, s', t)
    ensures |s'.q| == |s.q| && Matches(c, s, s', t, c.node[t], e)
  {
    var n := c.node[t];
    var q := s.q[n];
    e := Spec.Silent;
    if s.pc[t].Calling? {
      if s'.q != s.q {
        e := ReserveMatches(c, s, s', t);
      }
    } else {
      WriterStage(c, s, s', t);
    }
  }

  lemma ReserveMatches(c: Config, s: State, s': State, t: Tid) returns (e: Spec.Event<OpId>)
    requires ValidConfig(c) && Shape(c, s) && Queues(c, s) && Calls(c, s) && t < |s.pc| && EnqueueStep(c, s, s', t)
    requires s.pc[t].Calling? && s'.q != s.q
    ensures |s'.q| == |s.q| && Matches(c, s, s', t, c.node[t], e)
  {
    var n, op := c.node[t], s.pc[t].op;
    assert CallAt(t, s.pc[t], s.ops[op]);
    ReserveRefines(c.entries, s.q[n], t, op, s.ops[op].req);
    e := if Fits(c.entries, s.q[n].counter, s.ops[op].req) then Spec.Accepted(op) else Spec.Silent;
  }

  lemma WriterStage(c: Config, s: State, s': State, t: Tid)
    requires ValidConfig(c) && Shape(c, s) && Queues(c, s) && t < |s.pc| && EnqueueStep(c, s, s', t) && Writing(s.pc[t])
    ensures |s'.q| == |s.q| && Abstract(s'.q[c.node[t]]) == Abstract(s.q[c.node[t]])
  {
    var n, pc := c.node[t], s.pc[t];
    StageRefines(s.q[n], s'.q[n], pc.k, if pc.written then Published else Written);
  }

  lemma OpenMatches(c: Config, s: State, s': State, t: Tid)
    requires ValidConfig(c) && Shape(c, s) && Locks(c, s) && Queues(c, s) && t < |s.pc| && OwnStep(c, s, s', t)
    requires s.pc[t].OpenQueue?
    ensures |s'.q| == |s.q| && Matches(c, s, s', t, c.node[t], Spec.Opened)
  {
    assert !Helped(c, s, c.node[t]);
  }

  lemma FlushMatches(c: Config, s: State, s': State, t: Tid) returns (e: Spec.Event<OpId>)
    requires ValidConfig(c) && Shape(c, s) && Queues(c, s) && t < |s.pc| && FlushStep(c, s, s', t)
    ensures |s'.q| == |s.q| && Matches(c, s, s', t, c.node[t], e)
  {
    var q := s.q[c.node[t]];
    assert Phase(c.entries, q, s.pc[t]);
    match s.pc[t].fp
    case Load(done) => e := if q.counter != done && q.counter >= c.entries then Spec.Shut else Spec.Silent;
    case Close(_) => e := Spec.Shut;
    case Poll(_, _, _) => e := Spec.Silent;
    case Entry(_, _, _, _) => e := EntryMatches(c, s, s', t);
    case Fill(_, _) => e := Spec.Silent;
  }

  lemma EntryMatches(c: Config, s: State, s': State, t: Tid) returns (e: Spec.Event<OpId>)
    requires ValidConfig(c) && Shape(c, s) && Queues(c, s) && t < |s.pc| && FlushStep(c, s, s', t) && s.pc[t].fp.Entry?
    ensures |s'.q| == |s.q| && Matches(c, s, s', t, c.node[t], e)
  {
    var q, fp := s.q[c.node[t]], s.pc[t].fp;
    EntryFacts(c, s, t);
    AdvanceRefines(q);
    e := if fp.f == Wrapper then Spec.Taken(q.cells[fp.index].op) else Spec.Silent;
  }

  /** Every step of the protocol is one event of each queue. */
  lemma StepRefines(c: Config, s: State, s': State, t: Tid, n: nat) returns (e: Spec.Event<OpId>)
    requires ValidConfig(c) && Shape(c, s) && Locks(c, s) && Queues(c, s) && Writers(c, s) && Calls(c, s)
    requires t < |s.pc| && n < c.nodes && ThreadStep(c, s, s', t)
    ensures |s'.q| == |s.q| && Matches(c, s, s', t, n, e)
  {
    e := Spec.Silent;
    if !(n == c.node[t] && UsesQueue(s.pc[t])) {
      OthersSilent(c, s, s', t, n);
    } else if EnqueueStep(c, s, s', t) {
      e := EnqueueMatches(c, s, s', t);
    } else if s.pc[t].OpenQueue? {
      OpenMatches(c, s, s', t);
      e := Spec.Opened;
    } else if s.pc[t].Flush? {
      e := FlushMatches(c, s, s', t);
    } else {
      CallSilent(c, s, s', t);
    }
  }

  lemma CallSilent(c: Config, s: State, s': State, t: Tid)
    requires ValidConfig(c) && Shape(c, s) && t < |s.pc| && ThreadStep(c, s, s', t) && !EnqueueStep(c, s, s', t)
    requires s.pc[t].Calling?
    ensures s'.q == s.q
  {
  }

  /** The abstract history of node n's queue over a run. */
  ghost predicate History(c: Config, run: seq<State>, n: nat, events: seq<Spec.Event<OpId>>)
    requires ValidConfig(c) && Run(c, run) && n < c.nodes
  {
    && |events| == |run| - 1
    && forall i :: 0 <= i < |events| ==> ExplainedAt(c, run, n, events, i)
  }

  ghost predicate ExplainedAt(c: Config, run: seq<State>, n: nat, events: seq<Spec.Event<OpId>>, i: nat)
    requires ValidConfig(c) && n < c.nodes && i + 1 < |run| && i < |events| && Shape(c, run[i]) && Shape(c, run[i + 1])
  {
    Explains(c, run[i], run[i + 1], n, events[i])
  }

  ghost predicate Explains(c: Config, s: State, s': State, n: nat, e: Spec.Event<OpId>)
    requires ValidConfig(c) && Shape(c, s) && Shape(c, s') && n < c.nodes
  {
    exists t: Tid :: t < |s.pc| && ThreadStep(c, s, s', t) && Matches(c, s, s', t, n, e)
  }

  lemma NextExplained(c: Config, s: State, s': State, n: nat) returns (e: Spec.Event<OpId>)
    requires ValidConfig(c) && Inv(c, s) && Shape(c, s') && n < c.nodes && Next(c, s, s')
    ensures Explains(c, s, s', n, e)
  {
    var t: Tid :| t < |s.pc| && ThreadStep(c, s, s', t);
    e := StepRefines(c, s, s', t, n);
  }

  lemma ShorterRun(c: Config, run: seq<State>, m: nat)
    requires ValidConfig(c) && Run(c, run) && 0 < m < |run|
    ensures Run(c, run[..m])
  {
    forall i | 0 <= i < m - 1 ensures NextAt(c, run[..m], i) {
      assert NextAt(c, run, i);
    }
  }

  lemma StepExplained(c: Config, run: seq<State>, n: nat, m: nat, s: State, s': State) returns (e: Spec.Event<OpId>)
    requires ValidConfig(c) && Run(c, run) && n < c.nodes && m + 1 < |run| && s == run[m] && s' == run[m + 1]
    requires Shape(c, s) && Shape(c, s')
    ensures Explains(c, s, s', n, e)
  {
    RunKeepsInv(c, run, m, s);
    StepOf(c, run, m, s, s');
    e := NextExplained(c, s, s', n);
  }

  /** Refinement: every run has an abstract history. */
  lemma {:induction false} RunRefines(c: Config, run: seq<State>, n: nat) returns (events: seq<Spec.Event<OpId>>)
    requires ValidConfig(c) && Run(c, run) && n < c.nodes
    ensures History(c, run, n, events)
    decreases |run|
  {
    events := [];
    if |run| > 1 {
      ShorterRun(c, run, |run| - 1);
      events := RunRefines(c, run[..|run| - 1], n);
      var e := StepExplained(c, run, n, |run| - 2, run[|run| - 2], run[|run| - 1]);
      Lengthen(c, run, n, events, e);
      events := events + [e];
    }
  }

  lemma Lengthen(c: Config, run: seq<State>, n: nat, events: seq<Spec.Event<OpId>>, e: Spec.Event<OpId>)
    requires ValidConfig(c) && Run(c, run) && |run| > 1 && n < c.nodes && Run(c, run[..|run| - 1])
    requires History(c, run[..|run| - 1], n, events)
    requires Explains(c, run[|run| - 2], run[|run| - 1], n, e)
    ensures History(c, run, n, events + [e])
  {
    forall i | 0 <= i < |events + [e]| ensures ExplainedAt(c, run, n, events + [e], i) {
      if i < |events| {
        StillExplained(c, run, n, events, e, i);
      }
    }
  }

  lemma StillExplained(c: Config, run: seq<State>, n: nat, events: seq<Spec.Event<OpId>>, e: Spec.Event<OpId>, i: nat)
    requires ValidConfig(c) && Run(c, run) && |run| > 1 && n < c.nodes && Run(c, run[..|run| - 1])
    requires History(c, run[..|run| - 1], n, events) && i < |events|
    ensures ExplainedAt(c, run, n, events + [e], i)
  {
    assert ExplainedAt(c, run[..|run| - 1], n, events, i);
    assert run[..|run| - 1][i] == run[i] && run[..|run| - 1][i + 1] == run[i + 1] && (events + [e])[i] == events[i];
  }

  /** In every run, each queue executes what it accepted, in order, with nothing lost or repeated. */
  lemma DelegatedInOrder(c: Config, run: seq<State>, n: nat) returns (events: seq<Spec.Event<OpId>>)
    requires ValidConfig(c) && Run(c, run) && n < c.nodes
    ensures History(c, run, n, events)
    ensures Spec.TakenOf(events) + Abstract(run[|run| - 1].q[n]).pending == Spec.AcceptedOf(events)
    ensures Quiet(run[|run| - 1].q[n]) ==> Spec.TakenOf(events) == Spec.AcceptedOf(events)
  {
    events := RunRefines(c, run, n);
    var states := seq(|run|, i requires 0 <= i < |run| => AbstractAt(c, run, i, n));
    forall i | 0 <= i < |events| ensures Spec.StepBy(states[i], events[i], states[i + 1]) {
      AbstractStep(c, run, n, events, i, run[i], run[i + 1]);
    }
    StartsClosed(c, run[0], n);
    Spec.FirstInFirstOut(states, events);
  }

  lemma AbstractStep(c: Config, run: seq<State>, n: nat, events: seq<Spec.Event<OpId>>, i: nat, s: State, s': State)
    requires ValidConfig(c) && Run(c, run) && n < c.nodes && History(c, run, n, events) && i < |events|
    requires s == run[i] && s' == run[i + 1] && n < |s.q| && n < |s'.q|
    ensures Spec.StepBy(Abstract(s.q[n]), events[i], Abstract(s'.q[n]))
  {
    assert Shape(c, run[i]) && Shape(c, run[i + 1]);
    assert ExplainedAt(c, run, n, events, i);
  }

  function AbstractAt(c: Config, run: seq<State>, i: nat, n: nat): Spec.Tantrum<OpId>
    requires i < |run| && n < c.nodes && Shape(c, run[i])
  {
    Abstract(run[i].q[n])
  }

  lemma StartsClosed(c: Config, s: State, n: nat)
    requires ValidConfig(c) && Init(c, s) && n < c.nodes
    ensures Abstract(s.q[n]) == Spec.Tantrum(false, [])
  {
  }

  lemma {:induction false} TakenMovesOn(c: Config, run: seq<State>, n: nat, events: seq<Spec.Event<OpId>>, i: nat,
                                        j: nat, s: State, s': State)
    requires ValidConfig(c) && Run(c, run) && n < c.nodes && History(c, run, n, events) && i <= j <= |events|
    requires forall k :: i <= k < j ==> !events[k].Opened?
    requires s == run[i] && s' == run[j] && n < |s.q| && n < |s'.q|
    ensures s.q[n].pos + |Spec.TakenOf(events[i..j])| <= s'.q[n].pos
    decreases j
  {
    if i < j {
      var before := run[j - 1];
      StepMovesOn(c, run, n, events, j - 1, before, s');
      TakenMovesOn(c, run, n, events, i, j - 1, s, before);
      assert events[i..j][..j - i - 1] == events[i..j - 1];
    }
  }

  lemma StepMovesOn(c: Config, run: seq<State>, n: nat, events: seq<Spec.Event<OpId>>, i: nat, s: State, s': State)
    requires ValidConfig(c) && Run(c, run) && n < c.nodes && History(c, run, n, events) && i < |events|
    requires s == run[i] && s' == run[i + 1] && n < |s'.q|
    ensures n < |s.q| && (events[i].Opened? || s'.q[n].pos >= s.q[n].pos + if events[i].Taken? then 1 else 0)
  {
    assert Shape(c, run[i]) && Shape(c, run[i + 1]);
    assert ExplainedAt(c, run, n, events, i);
  }

  /** From one open to the next, the flush of a queue executes at most ENTRIES sections for other threads. */
  lemma HelpingBound(c: Config, run: seq<State>, n: nat, events: seq<Spec.Event<OpId>>, i: nat, j: nat)
    requires ValidConfig(c) && Run(c, run) && n < c.nodes && History(c, run, n, events) && i <= j <= |events|
    requires forall k :: i <= k < j ==> !events[k].Opened?
    ensures |Spec.TakenOf(events[i..j])| <= c.entries
  {
    var s := run[j];
    assert Shape(c, run[i]) && Shape(c, run[j]);
    TakenMovesOn(c, run, n, events, i, j, run[i], s);
    PrefixIsRun(c, run, j);
    PeriodReservations(c, s, n);
  }
}
