/**
 * Delegation does happen: with two threads on a node, whatever the policies, one can hand its
 * section over and return, and the other then runs it.
 */
module DelegationHappens {
  import opened Prelude
  import opened TantrumQueue
  import opened Delegation

  /** Two different threads of one node. */
  ghost predicate Pair(c: Config, a: Tid, b: Tid) {
    ValidConfig(c) && a < |c.node| && b < |c.node| && a != b && c.node[a] == c.node[b]
  }

  /** All threads are idle but a and b, which are at these program points; a may hold the locks. */
  function At(c: Config, a: Tid, b: Tid, pa: PC, pb: PC, holds: bool, guards: bool,
              q: Queue, ops: seq<Call>, log: seq<OpId>): State
    requires a < |c.node| && b < |c.node| && c.node[a] < c.nodes
  {
    State(seq(|c.node|, _ => Idle)[a := pa][b := pb],
          seq(c.nodes, _ => None)[c.node[a] := if holds then Some(a) else None],
          if guards && c.hier then Some(a) else None,
          seq(c.nodes, _ => Closed(c))[c.node[a] := q],
          ops, log, 0, seq(c.groups, _ => 0))
  }

  function Closed(c: Config): Queue {
    New(c.entries, seq(c.entries, _ => Cell(0, 0)))
  }

  lemma AtShape(c: Config, a: Tid, b: Tid, pa: PC, pb: PC, holds: bool, guards: bool, q: Queue, ops: seq<Call>,
                log: seq<OpId>)
    requires Pair(c, a, b)
    ensures Shape(c, At(c, a, b, pa, pb, holds, guards, q, ops, log))
  {
  }

  /** A step of a from one such state to another. */
  lemma MoveA(c: Config, a: Tid, b: Tid, pa: PC, pa': PC, pb: PC, holds: bool, guards: bool, q: Queue,
              ops: seq<Call>, log: seq<OpId>)
    requires Pair(c, a, b)
    ensures Goto(At(c, a, b, pa, pb, holds, guards, q, ops, log), a, pa')
         == At(c, a, b, pa', pb, holds, guards, q, ops, log)
    ensures At(c, a, b, pa, pb, holds, guards, q, ops, log).pc[a] == pa
  {
  }

  lemma MoveB(c: Config, a: Tid, b: Tid, pa: PC, pb: PC, pb': PC, holds: bool, guards: bool, q: Queue,
              ops: seq<Call>, log: seq<OpId>)
    requires Pair(c, a, b)
    ensures Goto(At(c, a, b, pa, pb, holds, guards, q, ops, log), b, pb')
         == At(c, a, b, pa, pb', holds, guards, q, ops, log)
    ensures At(c, a, b, pa, pb, holds, guards, q, ops, log).pc[b] == pb
  {
  }

  /** A new queue for the node. */
  lemma MoveQ(c: Config, a: Tid, b: Tid, pa: PC, pb: PC, holds: bool, guards: bool, q: Queue, q': Queue,
              ops: seq<Call>, log: seq<OpId>)
    requires Pair(c, a, b)
    ensures
      var s := At(c, a, b, pa, pb, holds, guards, q, ops, log);
      && s.q[c.node[a]] == q && s.q[c.node[b]] == q && c.node[b] == c.node[a]
      && s.q[c.node[a] := q'] == At(c, a, b, pa, pb, holds, guards, q', ops, log).q
  {
  }

  lemma Append(c: Config, run: seq<State>, s: State, s': State, t: Tid)
    requires ValidConfig(c) && Run(c, run) && s == run[|run| - 1]
    requires Shape(c, s) && Shape(c, s') && t < |s.pc| && ThreadStep(c, s, s', t)
    ensures Run(c, run + [s'])
  {
    assert Next(c, s, s');
    RunExtended(c, run, s, s');
  }

  // ---------- a becomes the helper ----------

  function CallOf(t: Tid): Call {
    Call(t, 1, false, {}, Active, false)
  }

  lemma Begins(c: Config, a: Tid, b: Tid) returns (run: seq<State>)
    requires Pair(c, a, b)
    ensures Run(c, run)
    ensures run[|run| - 1] == At(c, a, b, Calling(0, WaitWriters), Idle, false, false, Closed(c), [CallOf(a)], [])
  {
    var s := At(c, a, b, Idle, Idle, false, false, Closed(c), [], []);
    InitialAt(c, a, b);
    run := [s];
    assert Run(c, run);
    var s' := At(c, a, b, Calling(0, WaitWriters), Idle, false, false, Closed(c), [CallOf(a)], []);
    MoveA(c, a, b, Idle, Calling(0, WaitWriters), Idle, false, false, Closed(c), [], []);
    assert Returned(s.ops) == {};
    assert StartCall(c, s, s', a, 1, false);
    Append(c, run, s, s', a);
    run := run + [s'];
  }

  lemma InitialAt(c: Config, a: Tid, b: Tid)
    requires Pair(c, a, b)
    ensures Init(c, At(c, a, b, Idle, Idle, false, false, Closed(c), [], []))
  {
  }

  /** Steps of delegate by which a thread whose first attempt failed finds the queue closed. */
  lemma FindsClosed(c: Config, a: Tid, b: Tid, run: seq<State>) returns (longer: seq<State>)
    requires Pair(c, a, b) && Run(c, run)
    requires run[|run| - 1] == At(c, a, b, Calling(0, WaitWriters), Idle, false, false, Closed(c), [CallOf(a)], [])
    ensures Run(c, longer) && run <= longer
    ensures longer[|longer| - 1] == At(c, a, b, Calling(0, TryAgain(1)), Idle, false, false, Closed(c), [CallOf(a)], [])
  {
    var q, ops := Closed(c), [CallOf(a)];
    longer := run;
    longer := CallA(c, a, b, longer, WaitWriters, TryFirst, q, ops);
    longer := CallA(c, a, b, longer, TryFirst, LoadCounter(1), q, ops);
    longer := CallA(c, a, b, longer, LoadCounter(1), TryAgain(1), q, ops);
  }

  /** One such step. */
  lemma CallA(c: Config, a: Tid, b: Tid, run: seq<State>, at: CallPoint, at': CallPoint, q: Queue, ops: seq<Call>)
    returns (longer: seq<State>)
    requires Pair(c, a, b) && Run(c, run) && q == Closed(c) && ops == [CallOf(a)]
    requires run[|run| - 1] == At(c, a, b, Calling(0, at), Idle, false, false, q, ops, [])
    requires (at, at') == (WaitWriters, TryFirst) || (at, at') == (TryFirst, LoadCounter(1))
          || (at, at') == (LoadCounter(1), TryAgain(1))
    ensures Run(c, longer) && run <= longer
    ensures longer[|longer| - 1] == At(c, a, b, Calling(0, at'), Idle, false, false, q, ops, [])
  {
    var s := At(c, a, b, Calling(0, at), Idle, false, false, q, ops, []);
    var s' := At(c, a, b, Calling(0, at'), Idle, false, false, q, ops, []);
    MoveA(c, a, b, Calling(0, at), Calling(0, at'), Idle, false, false, q, ops, []);
    MoveQ(c, a, b, Calling(0, at), Idle, false, false, q, q, ops, []);
    assert CallStep(c, s, s', a) || EnqueueStep(c, s, s', a);
    Append(c, run, s, s', a);
    longer := run + [s'];
  }

  /** It takes the mutex in the retry loop and opens the queue. */
  lemma OpensQueue(c: Config, a: Tid, b: Tid, run: seq<State>) returns (longer: seq<State>)
    requires Pair(c, a, b) && Run(c, run)
    requires run[|run| - 1] == At(c, a, b, Calling(0, TryAgain(1)), Idle, false, false, Closed(c), [CallOf(a)], [])
    ensures Run(c, longer) && run <= longer
    ensures longer[|longer| - 1]
         == At(c, a, b, Own(0, true, Scan(0)), Idle, true, true, Open(Closed(c)), [CallOf(a)], [])
  {
    var q, ops := Closed(c), [CallOf(a)];
    var s := At(c, a, b, Calling(0, TryAgain(1)), Idle, false, false, q, ops, []);
    var taken := At(c, a, b, HLock(0, true), Idle, true, false, q, ops, []);
    var inside := At(c, a, b, OpenQueue(0), Idle, true, true, q, ops, []);
    var helping := At(c, a, b, Own(0, true, Scan(0)), Idle, true, true, Open(q), ops, []);
    Takes(c, a, b, q, ops);
    Append(c, run, s, taken, a);
    Guards(c, a, b, q, ops);
    Append(c, run + [taken], taken, inside, a);
    Opens(c, a, b, q, ops);
    Append(c, run + [taken] + [inside], inside, helping, a);
    longer := run + [taken] + [inside] + [helping];
  }

  lemma Takes(c: Config, a: Tid, b: Tid, q: Queue, ops: seq<Call>)
    requires Pair(c, a, b)
    ensures
      var s := At(c, a, b, Calling(0, TryAgain(1)), Idle, false, false, q, ops, []);
      var s' := At(c, a, b, HLock(0, true), Idle, true, false, q, ops, []);
      Shape(c, s) && Shape(c, s') && ThreadStep(c, s, s', a)
  {
    var s := At(c, a, b, Calling(0, TryAgain(1)), Idle, false, false, q, ops, []);
    MoveA(c, a, b, Calling(0, TryAgain(1)), HLock(0, true), Idle, false, false, q, ops, []);
    assert CallStep(c, s, At(c, a, b, HLock(0, true), Idle, true, false, q, ops, []), a);
  }

  lemma Guards(c: Config, a: Tid, b: Tid, q: Queue, ops: seq<Call>)
    requires Pair(c, a, b)
    ensures
      var s := At(c, a, b, HLock(0, true), Idle, true, false, q, ops, []);
      var s' := At(c, a, b, OpenQueue(0), Idle, true, true, q, ops, []);
      Shape(c, s) && Shape(c, s') && ThreadStep(c, s, s', a)
  {
    var s := At(c, a, b, HLock(0, true), Idle, true, false, q, ops, []);
    MoveA(c, a, b, HLock(0, true), OpenQueue(0), Idle, true, false, q, ops, []);
    assert GuardStep(c, s, At(c, a, b, OpenQueue(0), Idle, true, true, q, ops, []), a);
  }

  lemma Opens(c: Config, a: Tid, b: Tid, q: Queue, ops: seq<Call>)
    requires Pair(c, a, b)
    ensures
      var s := At(c, a, b, OpenQueue(0), Idle, true, true, q, ops, []);
      var s' := At(c, a, b, Own(0, true, Scan(0)), Idle, true, true, Open(q), ops, []);
      Shape(c, s) && Shape(c, s') && ThreadStep(c, s, s', a)
  {
    var s := At(c, a, b, OpenQueue(0), Idle, true, true, q, ops, []);
    MoveA(c, a, b, OpenQueue(0), Own(0, true, Scan(0)), Idle, true, true, q, ops, []);
    MoveQ(c, a, b, Own(0, true, Scan(0)), Idle, true, true, q, Open(q), ops, []);
    assert OwnStep(c, s, At(c, a, b, Own(0, true, Scan(0)), Idle, true, true, Open(q), ops, []), a);
  }

  // ---------- b hands its section over ----------

  /** b's call while a is at the start of its scan. */
  function Handing(c: Config, a: Tid, b: Tid, pb: PC, q: Queue, call: Call): State
    requires Pair(c, a, b)
  {
    At(c, a, b, Own(0, true, Scan(0)), pb, true, true, q, [CallOf(a), call], [])
  }

  lemma BeginsB(c: Config, a: Tid, b: Tid, run: seq<State>) returns (longer: seq<State>)
    requires Pair(c, a, b) && Run(c, run)
    requires run[|run| - 1] == At(c, a, b, Own(0, true, Scan(0)), Idle, true, true, Open(Closed(c)), [CallOf(a)], [])
    ensures Run(c, longer) && run <= longer
    ensures longer[|longer| - 1] == Handing(c, a, b, Calling(1, WaitWriters), Open(Closed(c)), CallOf(b))
  {
    var s := run[|run| - 1];
    var s' := Handing(c, a, b, Calling(1, WaitWriters), Open(Closed(c)), CallOf(b));
    MoveB(c, a, b, Own(0, true, Scan(0)), Idle, Calling(1, WaitWriters), true, true, Open(Closed(c)), [CallOf(a)], []);
    assert Returned(s.ops) == {};
    assert StartCall(c, s, s', b, 1, false);
    Append(c, run, s, s', b);
    longer := run + [s'];
  }

  /** A step of b that is given as a step. */
  lemma StepB(c: Config, a: Tid, b: Tid, run: seq<State>, s: State, s': State) returns (longer: seq<State>)
    requires Pair(c, a, b) && Run(c, run) && run[|run| - 1] == s
    requires Shape(c, s) && Shape(c, s') && (CallStep(c, s, s', b) || EnqueueStep(c, s, s', b))
    ensures Run(c, longer) && run <= longer && longer[|longer| - 1] == s'
  {
    Append(c, run, s, s', b);
    longer := run + [s'];
  }

  lemma CallB(c: Config, a: Tid, b: Tid, at: CallPoint, at': CallPoint, q: Queue)
    requires Pair(c, a, b) && q == Open(Closed(c))
    requires (at, at') == (WaitWriters, TryFirst) || (at, at') == (TryFirst, LoadCounter(1))
      || (at, at') == (LoadCounter(1), Reserve(1, 0))
    ensures
      var s := Handing(c, a, b, Calling(1, at), q, CallOf(b));
      var s' := Handing(c, a, b, Calling(1, at'), q, CallOf(b));
      Shape(c, s) && Shape(c, s') && (CallStep(c, s, s', b) || EnqueueStep(c, s, s', b))
  {
    var ops := [CallOf(a), CallOf(b)];
    MoveB(c, a, b, Own(0, true, Scan(0)), Calling(1, at), Calling(1, at'), true, true, q, ops, []);
    MoveQ(c, a, b, Own(0, true, Scan(0)), Calling(1, at), true, true, q, q, ops, []);
  }

  /** The queue after b's addition, its store of the entry, and its publication. */
  function Added(c: Config, b: Tid): Queue
    requires 1 <= c.entries
  {
    TantrumQueue.Reserve(c.entries, Open(Closed(c)), b, 1, 1)
  }

  function Stored1(c: Config, b: Tid): Queue
    requires 1 <= c.entries
  {
    TantrumQueue.WriteEntry(Added(c, b), 0, 1, 1, 0)
  }

  function Public(c: Config, b: Tid): Queue
    requires 1 <= c.entries
  {
    Publish(Stored1(c, b), 0, Wrapper, 0)
  }

  function Queued1(b: Tid): Call {
    CallOf(b).(status := Queued(0))
  }

  lemma AddsB(c: Config, a: Tid, b: Tid)
    requires Pair(c, a, b)
    ensures
      var s := Handing(c, a, b, Calling(1, Reserve(1, 0)), Open(Closed(c)), CallOf(b));
      var s' := Handing(c, a, b, Storing(1, 0, 0, false), Added(c, b), Queued1(b));
      Shape(c, s) && Shape(c, s') && EnqueueStep(c, s, s', b)
  {
    var q, pa, ops := Open(Closed(c)), Own(0, true, Scan(0)), [CallOf(a), CallOf(b)];
    MoveB(c, a, b, pa, Calling(1, Reserve(1, 0)), Storing(1, 0, 0, false), true, true, q, ops, []);
    MoveQ(c, a, b, pa, Storing(1, 0, 0, false), true, true, q, Added(c, b), ops, []);
    var s := Handing(c, a, b, Calling(1, Reserve(1, 0)), q, CallOf(b));
    assert SetStatus(s.ops, 1, Queued(0)) == [CallOf(a), Queued1(b)];
    assert Delegation.Reserved(c, s, b, 1, 1) == Handing(c, a, b, Storing(1, 0, 0, false), Added(c, b), Queued1(b));
  }

  lemma StoresB(c: Config, a: Tid, b: Tid)
    requires Pair(c, a, b)
    ensures
      var s := Handing(c, a, b, Storing(1, 0, 0, false), Added(c, b), Queued1(b));
      var s' := Handing(c, a, b, Storing(1, 0, 0, true), Stored1(c, b), Queued1(b));
      Shape(c, s) && Shape(c, s') && EnqueueStep(c, s, s', b)
  {
    var pa, ops := Own(0, true, Scan(0)), [CallOf(a), Queued1(b)];
    MoveB(c, a, b, pa, Storing(1, 0, 0, false), Storing(1, 0, 0, true), true, true, Added(c, b), ops, []);
    MoveQ(c, a, b, pa, Storing(1, 0, 0, true), true, true, Added(c, b), Stored1(c, b), ops, []);
  }

  lemma PublishesB(c: Config, a: Tid, b: Tid)
    requires Pair(c, a, b)
    ensures
      var s := Handing(c, a, b, Storing(1, 0, 0, true), Stored1(c, b), Queued1(b));
      var s' := Handing(c, a, b, Idle, Public(c, b), Queued1(b).(returned := true));
      Shape(c, s) && Shape(c, s') && EnqueueStep(c, s, s', b)
  {
    var pa, ops := Own(0, true, Scan(0)), [CallOf(a), Queued1(b)];
    MoveB(c, a, b, pa, Storing(1, 0, 0, true), Idle, true, true, Stored1(c, b), ops, []);
    MoveQ(c, a, b, pa, Idle, true, true, Stored1(c, b), Public(c, b), ops, []);
    assert Return(ops, 1) == [CallOf(a), Queued1(b).(returned := true)];
  }

  lemma HandsOver(c: Config, a: Tid, b: Tid, run: seq<State>) returns (longer: seq<State>)
    requires Pair(c, a, b) && Run(c, run)
    requires run[|run| - 1] == Handing(c, a, b, Calling(1, WaitWriters), Open(Closed(c)), CallOf(b))
    ensures Run(c, longer) && run <= longer
    ensures longer[|longer| - 1] == Handing(c, a, b, Idle, Public(c, b), Queued1(b).(returned := true))
  {
    var q := Open(Closed(c));
    longer := run;
    CallB(c, a, b, WaitWriters, TryFirst, q);
    longer := StepB(c, a, b, longer, longer[|longer| - 1], Handing(c, a, b, Calling(1, TryFirst), q, CallOf(b)));
    CallB(c, a, b, TryFirst, LoadCounter(1), q);
    longer := StepB(c, a, b, longer, longer[|longer| - 1], Handing(c, a, b, Calling(1, LoadCounter(1)), q, CallOf(b)));
    CallB(c, a, b, LoadCounter(1), Reserve(1, 0), q);
    longer := StepB(c, a, b, longer, longer[|longer| - 1], Handing(c, a, b, Calling(1, Reserve(1, 0)), q, CallOf(b)));
    longer := Writes(c, a, b, longer);
  }

  lemma Writes(c: Config, a: Tid, b: Tid, run: seq<State>) returns (longer: seq<State>)
    requires Pair(c, a, b) && Run(c, run)
    requires run[|run| - 1] == Handing(c, a, b, Calling(1, Reserve(1, 0)), Open(Closed(c)), CallOf(b))
    ensures Run(c, longer) && run <= longer
    ensures longer[|longer| - 1] == Handing(c, a, b, Idle, Public(c, b), Queued1(b).(returned := true))
  {
    AddsB(c, a, b);
    longer := StepB(c, a, b, run, run[|run| - 1], Handing(c, a, b, Storing(1, 0, 0, false), Added(c, b), Queued1(b)));
    StoresB(c, a, b);
    longer := StepB(c, a, b, longer, longer[|longer| - 1],
                    Handing(c, a, b, Storing(1, 0, 0, true), Stored1(c, b), Queued1(b)));
    PublishesB(c, a, b);
    longer := StepB(c, a, b, longer, longer[|longer| - 1],
                    Handing(c, a, b, Idle, Public(c, b), Queued1(b).(returned := true)));
  }

  // ---------- a runs both ----------

  /** a helps, b's call has returned. */
  function Helping1(c: Config, a: Tid, b: Tid, pa: PC, q: Queue, ops: seq<Call>, log: seq<OpId>): State
    requires Pair(c, a, b)
  {
    At(c, a, b, pa, Idle, true, true, q, ops, log)
  }

  lemma StepA(c: Config, a: Tid, b: Tid, run: seq<State>, s: State, s': State) returns (longer: seq<State>)
    requires Pair(c, a, b) && Run(c, run) && run[|run| - 1] == s
    requires Shape(c, s) && Shape(c, s') && (OwnStep(c, s, s', a) || FlushStep(c, s, s', a))
    ensures Run(c, longer) && run <= longer && longer[|longer| - 1] == s'
  {
    Append(c, run, s, s', a);
    longer := run + [s'];
  }

  lemma ScansOne(c: Config, a: Tid, b: Tid, g: nat, q: Queue, ops: seq<Call>)
    requires Pair(c, a, b) && g <= c.groups
    ensures
      var s := Helping1(c, a, b, Own(0, true, Scan(g)), q, ops, []);
      var s' := Helping1(c, a, b, Own(0, true, if !c.rw || g >= c.groups then Section else Scan(g + 1)), q, ops, []);
      Shape(c, s) && Shape(c, s') && OwnStep(c, s, s', a)
  {
    MoveA(c, a, b, Own(0, true, Scan(g)), Own(0, true, if !c.rw || g >= c.groups then Section else Scan(g + 1)), Idle,
          true, true, q, ops, []);
  }

  lemma {:induction false} Scans(c: Config, a: Tid, b: Tid, run: seq<State>, g: nat, q: Queue, ops: seq<Call>)
    returns (longer: seq<State>)
    requires Pair(c, a, b) && Run(c, run) && g <= c.groups
    requires run[|run| - 1] == Helping1(c, a, b, Own(0, true, Scan(g)), q, ops, [])
    ensures Run(c, longer) && run <= longer
    ensures longer[|longer| - 1] == Helping1(c, a, b, Own(0, true, Section), q, ops, [])
    decreases c.groups - g
  {
    var next := if !c.rw || g >= c.groups then Section else Scan(g + 1);
    ScansOne(c, a, b, g, q, ops);
    longer := StepA(c, a, b, run, run[|run| - 1], Helping1(c, a, b, Own(0, true, next), q, ops, []));
    if next.Scan? {
      longer := Scans(c, a, b, longer, g + 1, q, ops);
    }
  }

  lemma RunsOwn(c: Config, a: Tid, b: Tid, q: Queue, ops: seq<Call>)
    requires Pair(c, a, b) && |ops| == 2
    ensures
      var s := Helping1(c, a, b, Own(0, true, Section), q, ops, []);
      var s' := Helping1(c, a, b, Flush(0, Load(0)), q, SetStatus(ops, 0, Logged(0)), [0]);
      Shape(c, s) && Shape(c, s') && OwnStep(c, s, s', a)
  {
    MoveA(c, a, b, Own(0, true, Section), Flush(0, Load(0)), Idle, true, true, q, ops, []);
  }

  lemma Loads(c: Config, a: Tid, b: Tid, q: Queue, ops: seq<Call>)
    requires Pair(c, a, b) && q.counter == 1
    ensures
      var s := Helping1(c, a, b, Flush(0, Load(0)), q, ops, [0]);
      var s' := Helping1(c, a, b, Flush(0, Poll(0, 1, 1 < c.entries)), LoadTodo(c.entries, q), ops, [0]);
      Shape(c, s) && Shape(c, s') && FlushStep(c, s, s', a)
  {
    var pa := Flush(0, Poll(0, 1, 1 < c.entries));
    MoveA(c, a, b, Flush(0, Load(0)), pa, Idle, true, true, q, ops, [0]);
    MoveQ(c, a, b, pa, Idle, true, true, q, LoadTodo(c.entries, q), ops, [0]);
  }

  lemma Polls(c: Config, a: Tid, b: Tid, q: Queue, ops: seq<Call>, open: bool)
    requires Pair(c, a, b) && |q.fn| > 0 && q.fn[0] == Wrapper
    ensures
      var s := Helping1(c, a, b, Flush(0, Poll(0, 1, open)), q, ops, [0]);
      var s' := Helping1(c, a, b, Flush(0, Entry(Wrapper, 0, 1, open)), q, ops, [0]);
      Shape(c, s) && Shape(c, s') && FlushStep(c, s, s', a)
  {
    MoveA(c, a, b, Flush(0, Poll(0, 1, open)), Flush(0, Entry(Wrapper, 0, 1, open)), Idle, true, true, q, ops, [0]);
    MoveQ(c, a, b, Flush(0, Poll(0, 1, open)), Idle, true, true, q, q, ops, [0]);
  }

  lemma Calls1(c: Config, a: Tid, b: Tid, q: Queue, ops: seq<Call>, open: bool)
    requires Pair(c, a, b) && |q.cells| > 0 && q.cells[0] == Cell(1, 1) && |ops| == 2
    ensures
      var s := Helping1(c, a, b, Flush(0, Entry(Wrapper, 0, 1, open)), q, ops, [0]);
      var s' := Helping1(c, a, b, AfterEntries(0, 1, 1, open), Advance(q), SetStatus(ops, 1, Logged(1)), [0, 1]);
      Shape(c, s) && Shape(c, s') && FlushStep(c, s, s', a)
  {
    var pa := Flush(0, Entry(Wrapper, 0, 1, open));
    MoveA(c, a, b, pa, AfterEntries(0, 1, 1, open), Idle, true, true, q, ops, [0]);
    MoveQ(c, a, b, pa, Idle, true, true, q, Advance(q), ops, [0]);
    assert [0] + [1] == [0, 1];
  }

  lemma RunsHanded(c: Config, a: Tid, b: Tid, run: seq<State>) returns (longer: seq<State>)
    requires Pair(c, a, b) && Run(c, run)
    requires run[|run| - 1] == Handing(c, a, b, Idle, Public(c, b), Queued1(b).(returned := true))
    ensures Run(c, longer) && run <= longer && |longer| > |run|
    ensures longer[|longer| - 1].log == [0, 1] && longer[|longer| - 2].log == [0]
    ensures longer[|longer| - 1].pc[b] == longer[|longer| - 2].pc[b] == Idle
    ensures longer[|longer| - 2].pc[a].Flush?
  {
    var q, ops := Public(c, b), [CallOf(a), Queued1(b).(returned := true)];
    longer := Scans(c, a, b, run, 0, q, ops);
    RunsOwn(c, a, b, q, ops);
    var ops1 := SetStatus(ops, 0, Logged(0));
    longer := StepA(c, a, b, longer, longer[|longer| - 1], Helping1(c, a, b, Flush(0, Load(0)), q, ops1, [0]));
    longer := FlushesHanded(c, a, b, longer, ops1);
  }

  lemma FlushesHanded(c: Config, a: Tid, b: Tid, run: seq<State>, ops: seq<Call>) returns (longer: seq<State>)
    requires Pair(c, a, b) && Run(c, run) && |ops| == 2
    requires run[|run| - 1] == Helping1(c, a, b, Flush(0, Load(0)), Public(c, b), ops, [0])
    ensures Run(c, longer) && run <= longer && |longer| > |run|
    ensures longer[|longer| - 1].log == [0, 1] && longer[|longer| - 2].log == [0]
    ensures longer[|longer| - 1].pc[b] == longer[|longer| - 2].pc[b] == Idle
    ensures longer[|longer| - 2].pc[a].Flush?
  {
    var q, open := LoadTodo(c.entries, Public(c, b)), 1 < c.entries;
    Loads(c, a, b, Public(c, b), ops);
    longer := StepA(c, a, b, run, run[|run| - 1], Helping1(c, a, b, Flush(0, Poll(0, 1, open)), q, ops, [0]));
    Polls(c, a, b, q, ops, open);
    var s := Helping1(c, a, b, Flush(0, Entry(Wrapper, 0, 1, open)), q, ops, [0]);
    longer := StepA(c, a, b, longer, longer[|longer| - 1], s);
    Calls1(c, a, b, q, ops, open);
    longer := StepLast(c, a, b, longer, s,
                       Helping1(c, a, b, AfterEntries(0, 1, 1, open), Advance(q),
                                 SetStatus(ops, 1, Logged(1)), [0, 1]));
  }

  lemma StepLast(c: Config, a: Tid, b: Tid, run: seq<State>, s: State, s': State) returns (longer: seq<State>)
    requires Pair(c, a, b) && Run(c, run) && run[|run| - 1] == s && Shape(c, s) && Shape(c, s')
    requires FlushStep(c, s, s', a)
    ensures Run(c, longer) && longer == run + [s']
  {
    Append(c, run, s, s', a);
    longer := run + [s'];
  }

  /**
   * For any two threads of a node there is a run in which one of them returns from delegate with its section only
   * queued, and later the other, helping, runs it.
   */
  lemma DelegationHappens(c: Config, a: Tid, b: Tid) returns (run: seq<State>, i: nat, o: OpId)
    requires Pair(c, a, b)
    ensures Run(c, run) && i + 1 < |run|
    ensures o < |run[i].ops| && run[i].ops[o].thread == b && run[i].ops[o].returned && run[i].ops[o].status.Queued?
    ensures o !in run[|run| - 2].log && o in run[|run| - 1].log
    ensures Helping(run[|run| - 2].pc[a]) && run[|run| - 2].pc[b] == run[|run| - 1].pc[b] == Idle
  {
    run := Begins(c, a, b);
    run := FindsClosed(c, a, b, run);
    run := OpensQueue(c, a, b, run);
    run := BeginsB(c, a, b, run);
    run := HandsOver(c, a, b, run);
    i, o := |run| - 1, 1;
    var handed := run[i];
    run := RunsHanded(c, a, b, run);
    assert run[i] == handed;
  }
}
