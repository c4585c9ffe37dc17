/** The inductive invariant of the delegation protocol, in five parts. */
module DelegationInvariant {
  import opened Prelude
  import opened TantrumQueue
  import opened Delegation

  /** Program points and lock holders agree; this makes every guarded region exclusive. */
  ghost predicate Locks(c: Config, s: State)
    requires ValidConfig(c) && Shape(c, s)
  {
    && (forall t :: 0 <= t < |s.pc| && HoldsMutex(s.pc[t]) ==> s.mutex[c.node[t]] == Some(t))
    && (forall n :: 0 <= n < c.nodes && s.mutex[n].Some? ==>
          s.mutex[n].value < |s.pc| && c.node[s.mutex[n].value] == n && HoldsMutex(s.pc[s.mutex[n].value]))
    && (forall t :: 0 <= t < |s.pc| && c.hier && InGuard(s.pc[t]) ==> s.global == Some(t))
    && (s.global.Some? ==> c.hier && s.global.value < |s.pc| && InGuard(s.pc[s.global.value]))
  }

  ghost predicate Helped(c: Config, s: State, n: nat)
    requires ValidConfig(c) && Shape(c, s) && n < c.nodes
  {
    s.mutex[n].Some? && s.mutex[n].value < |s.pc| && Helping(s.pc[s.mutex[n].value])
  }

  /** How far the helper at a given program point is with its queue. */
  ghost predicate Phase(entries: nat, q: Queue, pc: PC)
    requires Wf(entries, q)
  {
    match pc
    case Own(_, helper, _) => helper ==> q.live && q.pos == q.lim == 0
    case Flush(_, Load(done)) => q.live && q.pos == q.lim && done == Start(q.res, q.pos)
    case Flush(_, Close(done)) => q.live && q.pos == q.lim && done == Start(q.res, q.pos)
    case Flush(_, Poll(index, todo, open)) => Draining(entries, q, index, todo, open)
    case Flush(_, Entry(f, index, todo, open)) =>
      Draining(entries, q, index, todo, open) && f == q.fn[index] && f != Null
    case Flush(_, Fill(i, todo)) =>
      && !q.live && q.pos == |q.res| && i < todo == End(q)
      && (forall j :: 0 <= j < i ==> q.fn[j] == Null)
    case _ => true
  }

  ghost predicate Draining(entries: nat, q: Queue, index: nat, todo: nat, open: bool)
    requires Wf(entries, q)
  {
    && q.pos < q.lim && index == Start(q.res, q.pos) && index < entries && todo == Start(q.res, q.lim)
    && q.live == open
    && (!open ==> q.lim == |q.res|)
  }

  ghost predicate Queues(c: Config, s: State)
    requires ValidConfig(c) && Shape(c, s)
  {
    && (forall n :: 0 <= n < c.nodes ==> Wf(c.entries, s.q[n]))
    && (forall n :: 0 <= n < c.nodes && !Helped(c, s, n) ==> Quiet(s.q[n]))
    && (forall t :: 0 <= t < |s.pc| && Helping(s.pc[t]) ==> Phase(c.entries, s.q[c.node[t]], s.pc[t]))
  }

  predicate Writing(pc: PC) {
    pc.Storing? || pc.Padding?
  }

  /** The thread at program point pc is about to store, or to publish, reservation r. */
  ghost predicate Owns(entries: nat, pc: PC, k: nat, r: Reservation) {
    && Writing(pc)
    && pc.k == k && pc.index == r.index
    && r.op == (if pc.Storing? then Some(pc.op) else None)
    && r.stage == (if pc.written then Written else Stage.Reserved)
    && (pc.Padding? ==> r.index + r.size == entries)
  }

  /** Threads in flight and unpublished reservations correspond one to one. */
  ghost predicate Writers(c: Config, s: State)
    requires ValidConfig(c) && Shape(c, s)
  {
    && (forall t :: 0 <= t < |s.pc| && Writing(s.pc[t]) ==>
          var q := s.q[c.node[t]];
          var k := s.pc[t].k;
          q.pos <= k < |q.res| && q.res[k].owner == t && Owns(c.entries, s.pc[t], k, q.res[k]))
    && (forall n, k :: 0 <= n < c.nodes && s.q[n].pos <= k < |s.q[n].res| && s.q[n].res[k].stage != Published ==>
          var t := s.q[n].res[k].owner;
          t < |s.pc| && c.node[t] == n && Owns(c.entries, s.pc[t], k, s.q[n].res[k]))
  }

  /** A call is with its thread, in a queue, or in the log, and in only one of the three. */
  ghost predicate Calls(c: Config, s: State)
    requires ValidConfig(c) && Shape(c, s)
  {
    && (forall o :: 0 <= o < |s.ops| ==> s.ops[o].thread < |s.pc| && 1 <= s.ops[o].req <= c.maxReq)
    && (forall o :: 0 <= o < |s.ops| && !s.ops[o].returned ==>
          HasCall(s.pc[s.ops[o].thread]) && s.pc[s.ops[o].thread].op == o)
    && (forall o :: 0 <= o < |s.ops| && s.ops[o].returned ==> s.ops[o].status != Active)
    && (forall t :: 0 <= t < |s.pc| && HasCall(s.pc[t]) ==>
          s.pc[t].op < |s.ops| && CallAt(t, s.pc[t], s.ops[s.pc[t].op]))
  }

  ghost predicate CallAt(t: Tid, pc: PC, call: Call) {
    && call.thread == t && !call.returned
    && (if Fresh(pc) then call.status == Active
        else if pc.Storing? then call.status == Queued(pc.k)
        else call.status.Logged?)
  }

  ghost predicate Places(c: Config, s: State)
    requires ValidConfig(c) && Shape(c, s) && Calls(c, s)
  {
    && (forall o :: 0 <= o < |s.ops| && s.ops[o].status.Queued? ==>
          InQueue(s.q[c.node[s.ops[o].thread]], s.ops[o].status.k, o, s.ops[o].req))
    && (forall n, k :: 0 <= n < c.nodes && s.q[n].pos <= k < |s.q[n].res| && s.q[n].res[k].op.Some? ==>
          IsQueued(c, s, n, k, s.q[n].res[k].op.value))
    && (forall o :: 0 <= o < |s.ops| && s.ops[o].status.Logged? ==>
          s.ops[o].status.p < |s.log| && s.log[s.ops[o].status.p] == o)
    && (forall p :: 0 <= p < |s.log| ==> s.log[p] < |s.ops| && s.ops[s.log[p]].status == Logged(p))
  }

  ghost predicate InQueue(q: Queue, k: nat, o: OpId, req: nat) {
    q.pos <= k < |q.res| && q.res[k].op == Some(o) && q.res[k].size == req
  }

  ghost predicate IsQueued(c: Config, s: State, n: nat, k: nat, o: OpId)
    requires ValidConfig(c) && Shape(c, s) && Calls(c, s)
  {
    o < |s.ops| && s.ops[o].status == Queued(k) && c.node[s.ops[o].thread] == n
  }

  /** Where a call a must be for a call b, which began after a returned, to be where it is. */
  ghost predicate Precedes(a: Call, b: Call, node: seq<nat>)
    requires a.thread < |node| && b.thread < |node|
  {
    match b.status
    case Active => true
    case Queued(k) => a.status.Logged? || (a.status.Queued? && a.status.k < k && node[a.thread] == node[b.thread])
    case Logged(p) => a.status.Logged? && a.status.p < p
  }

  ghost predicate IsBehind(c: Config, s: State, a: OpId, b: OpId)
    requires ValidConfig(c) && Shape(c, s) && Calls(c, s) && b < |s.ops|
  {
    a < |s.ops| && s.ops[a].returned && Precedes(s.ops[a], s.ops[b], c.node)
  }

  /** Real-time order: nothing overtakes a call that had returned before it began. */
  ghost predicate Order(c: Config, s: State)
    requires ValidConfig(c) && Shape(c, s) && Calls(c, s)
  {
    forall b, a :: 0 <= b < |s.ops| && a in s.ops[b].before ==> IsBehind(c, s, a, b)
  }

  ghost predicate AreLogged(ops: seq<Call>, before: set<OpId>) {
    forall a :: a in before ==> a < |ops| && ops[a].status.Logged?
  }

  /** A thread that is about to run its own section has no predecessor left to wait for. */
  ghost predicate Cleared(c: Config, s: State)
    requires ValidConfig(c) && Shape(c, s) && Calls(c, s)
  {
    forall t :: 0 <= t < |s.pc| && InGuard(s.pc[t]) && Fresh(s.pc[t]) ==> AreLogged(s.ops, s.ops[s.pc[t].op].before)
  }

  // ---------- readers ----------

  function Members(c: Config, pc: seq<PC>, g: nat): set<Tid>
    requires ValidConfig(c) && |pc| == |c.node|
  {
    set t: Tid | t < |pc| && Group(c, t) == g && Counted(pc[t])
  }

  function Raisers(pc: seq<PC>): set<Tid> {
    set t: Tid | t < |pc| && HasRaised(pc[t])
  }

  /** The number of groups a writer has found empty since it took the guard. */
  function Scanned(c: Config, pc: PC): nat {
    if pc.Own? && pc.point.Scan? then pc.point.g
    else if pc.Own? || pc.Flush? || pc.HUnlock? then c.groups
    else 0
  }

  /** A reader raises the barrier once, and lowers it only if it has raised it. */
  predicate RaisedFits(pc: PC)
    requires pc.Reader?
  {
    (pc.rp.Raise? ==> !pc.raised) && (pc.rp.Lower? ==> pc.raised)
  }

  ghost predicate Readers(c: Config, s: State)
    requires ValidConfig(c) && Shape(c, s)
  {
    && (forall g :: 0 <= g < c.groups ==> s.rc[g] == |Members(c, s.pc, g)|)
    && s.barrier == |Raisers(s.pc)|
    && (forall t :: 0 <= t < |s.pc| && s.pc[t].Reader? ==> c.rw && RaisedFits(s.pc[t]))
    && (forall t, r :: 0 <= t < |s.pc| && 0 <= r < |s.pc| && Admitted(s.pc[r]) ==> Scanned(c, s.pc[t]) <= Group(c, r))
  }

  ghost predicate Inv(c: Config, s: State)
    requires ValidConfig(c)
  {
    && Shape(c, s)
    && Locks(c, s)
    && Queues(c, s)
    && Writers(c, s)
    && Calls(c, s)
    && Places(c, s)
    && Order(c, s)
    && Cleared(c, s)
    && Readers(c, s)
  }

  lemma GuardUnique(c: Config, s: State, t1: Tid, t2: Tid)
    requires ValidConfig(c) && Shape(c, s) && Locks(c, s)
    requires t1 < |s.pc| && t2 < |s.pc| && InGuard(s.pc[t1]) && InGuard(s.pc[t2])
    ensures t1 == t2
  {
    if !c.hier {
      assert c.node[t1] == 0 && c.node[t2] == 0;
    }
  }

  /** A step of t that neither enters nor leaves a locked region. */
  lemma LocksFrame(c: Config, s: State, s': State, t: Tid)
    requires ValidConfig(c) && Shape(c, s) && t < |s.pc| && Locks(c, s)
    requires Shape(c, s') && s'.pc == s.pc[t := s'.pc[t]] && s'.mutex == s.mutex && s'.global == s.global
    requires HoldsMutex(s'.pc[t]) == HoldsMutex(s.pc[t]) && InGuard(s'.pc[t]) == InGuard(s.pc[t])
    ensures Locks(c, s')
  {
  }

  lemma LocksOnStart(c: Config, s: State, s': State, t: Tid, req: nat, direct: bool)
    requires ValidConfig(c) && Shape(c, s) && t < |s.pc| && Locks(c, s) && StartCall(c, s, s', t, req, direct)
    ensures Shape(c, s') && Locks(c, s')
  {
    LocksFrame(c, s, s', t);
  }

  lemma LocksOnCall(c: Config, s: State, s': State, t: Tid)
    requires ValidConfig(c) && Shape(c, s) && t < |s.pc| && Locks(c, s) && CallStep(c, s, s', t)
    ensures Shape(c, s') && Locks(c, s')
  {
    if s'.mutex == s.mutex {
      LocksFrame(c, s, s', t);
    } else {
      LocksAcquired(c, s, t, s.pc[t].at.TryAgain?);
    }
  }

  lemma LocksAcquired(c: Config, s: State, t: Tid, helper: bool)
    requires ValidConfig(c) && Shape(c, s) && t < |s.pc| && Locks(c, s) && s.pc[t].Calling?
    requires s.mutex[c.node[t]] == None
    ensures Locks(c, Acquire(c, s, t, helper))
  {
  }

  /** What a step of enqueue leaves alone. */
  lemma EnqueueFrame(c: Config, s: State, s': State, t: Tid)
    requires ValidConfig(c) && Shape(c, s) && t < |s.pc| && EnqueueStep(c, s, s', t)
    ensures Shape(c, s') && s'.pc == s.pc[t := s'.pc[t]] && s'.mutex == s.mutex && s'.global == s.global
    ensures HoldsMutex(s'.pc[t]) == HoldsMutex(s.pc[t]) && InGuard(s'.pc[t]) == InGuard(s.pc[t])
  {
  }

  lemma LocksOnEnqueue(c: Config, s: State, s': State, t: Tid)
    requires ValidConfig(c) && Shape(c, s) && t < |s.pc| && Locks(c, s) && EnqueueStep(c, s, s', t)
    ensures Shape(c, s') && Locks(c, s')
  {
    EnqueueFrame(c, s, s', t);
    LocksFrame(c, s, s', t);
  }

  /** HSync::lock. */
  lemma LocksEntered(c: Config, s: State, t: Tid, pc: PC, global: Option<Tid>)
    requires ValidConfig(c) && Shape(c, s) && t < |s.pc| && Locks(c, s) && s.pc[t].HLock? && InGuard(pc)
    requires global == if c.hier then Some(t) else s.global
    requires c.hier ==> s.global == None
    ensures Locks(c, Goto(s, t, pc).(global := global))
  {
  }

  /** HSync::unlock. */
  lemma LocksLeft(c: Config, s: State, t: Tid, op: OpId)
    requires ValidConfig(c) && Shape(c, s) && t < |s.pc| && Locks(c, s) && s.pc[t] == HUnlock(op)
    ensures Locks(c, Goto(s, t, MUnlock(op)).(global := if c.hier then None else s.global))
  {
  }

  /** The unlock of the node's mutex. */
  lemma LocksReleased(c: Config, s: State, t: Tid, op: OpId)
    requires ValidConfig(c) && Shape(c, s) && t < |s.pc| && Locks(c, s) && s.pc[t] == MUnlock(op)
    ensures Locks(c, Goto(s, t, Leaving(op)).(mutex := s.mutex[c.node[t] := None]))
  {
  }

  lemma LocksOnGuard(c: Config, s: State, s': State, t: Tid)
    requires ValidConfig(c) && Shape(c, s) && t < |s.pc| && Locks(c, s) && GuardStep(c, s, s', t)
    ensures Shape(c, s') && Locks(c, s')
  {
    match s.pc[t]
    case HLock(op, helper) =>
      if s' != s {
        LocksEntered(c, s, t, if helper then OpenQueue(op) else Own(op, false, Scan(0)), if c.hier then Some(t)
            else s.global);
      }
    case HUnlock(op) => LocksLeft(c, s, t, op);
    case MUnlock(op) => LocksReleased(c, s, t, op);
  }

  lemma LocksOnOwn(c: Config, s: State, s': State, t: Tid)
    requires ValidConfig(c) && Shape(c, s) && t < |s.pc| && Locks(c, s) && OwnStep(c, s, s', t)
    ensures Shape(c, s') && Locks(c, s')
  {
    LocksFrame(c, s, s', t);
  }

  lemma LocksOnFlush(c: Config, s: State, s': State, t: Tid)
    requires ValidConfig(c) && Shape(c, s) && t < |s.pc| && Locks(c, s) && FlushStep(c, s, s', t)
    ensures Shape(c, s') && Locks(c, s')
  {
    LocksFrame(c, s, s', t);
  }

  lemma LocksOnReader(c: Config, s: State, s': State, t: Tid)
    requires ValidConfig(c) && Shape(c, s) && t < |s.pc| && Locks(c, s) && ReaderStep(c, s, s', t)
    ensures Shape(c, s') && Locks(c, s')
  {
    LocksFrame(c, s, s', t);
  }
}
