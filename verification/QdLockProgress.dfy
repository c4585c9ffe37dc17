/**
 * Deadlock freedom of qdlock and mrqdlock, in a strong form: from every reachable state with an
 * unfinished call there is a continuation in which an unfinished call returns.
 */
module QdLockProgress {
  import opened Prelude
  import opened QdLock
  import opened QdLockPaths
  import opened QdLockReaders
  import Q = TantrumQueue
  import D = Delegation
  import DI = DelegationInvariant
  import DQ = DelegationQueues
  import DT = DelegationTheorems
  import L = McsFutexLock
  import LT = McsFutexTheorems

  // ---------- a thread in unlock ----------

  /** A step inside the lock that does not end the call. */
  lemma InsideMove(c: D.Config, x: State, l': L.State, t: Tid)
    requires ValidConfig(c) && Reachable(c, x) && Shape(c, x) && t < Threads(c) && InsideStep(Threads(c), x.l, l', t)
    requires t < |l'.pc| && !l'.pc[t].Holding? && !l'.pc[t].Out? && l' != x.l && !Sleeping(x.l.pc[t])
    ensures ThreadStep(c, x, x.(l := l'), t) && Reachable(c, x.(l := l'))
    ensures Shape(c, x.(l := l')) && L.Inv(Threads(c), l') && Glue(c, x.(l := l'))
    ensures CanFinish(c, x.(l := l')) ==> CanFinish(c, x)
  {
    OneMove(c, x, x.(l := l'), t);
  }

  /** The end of unlock is the end of the call. */
  lemma UnlockReturns(c: D.Config, x: State, l': L.State, t: Tid)
    requires ValidConfig(c) && Reachable(c, x) && Shape(c, x) && Glue(c, x) && t < Threads(c)
    requires InsideStep(Threads(c), x.l, l', t) && x.l.pc[t].Unlock? && t < |l'.pc| && l'.pc[t].Out?
    ensures CanFinish(c, x)
  {
    assert Fits(x.d.pc[t], x.l.pc[t]);
    CallFacts(c, x, t);
    var o := x.d.pc[t].op;
    var d' := D.Goto(x.d, t, D.Idle).(ops := D.Return(x.d.ops, o));
    assert LockStep(c, x, State(d', l'), t);
    Now(c, x, State(d', l'), t, o);
  }

  /** How far the thread behind the head is from storing its link. */
  function LinkRank(l: L.State): nat {
    if l.left + 1 < |l.joined| && l.joined[l.left + 1] < |l.pc| then
      var pc := l.pc[l.joined[l.left + 1]];
      if pc.Lock? && pc.lp.SetTaken? then 2 else if pc.Lock? && pc.lp.Link? then 1 else 0
    else 0
  }

  lemma {:induction false} UnlockFinishes(c: D.Config, x: State, t: Tid)
    requires ValidConfig(c) && Reachable(c, x) && Shape(c, x) && L.Inv(Threads(c), x.l) && Glue(c, x)
    requires t < Threads(c) && x.l.pc[t].Unlock?
    ensures CanFinish(c, x)
    decreases LT.UnlockRank(x.l.pc[t].up), LinkRank(x.l), 1
  {
    assert L.ThreadOk(Threads(c), x.l, t);
    if x.l.pc[t] == L.Unlock(L.Await) && x.l.nodes[t].next.None? {
      LinkArrives(c, x, t);
    } else {
      var l' := UnlockMove(Threads(c), x.l, t);
      if l'.pc[t].Out? {
        UnlockReturns(c, x, l', t);
      } else {
        InsideMove(c, x, l', t);
        UnlockFinishes(c, x.(l := l'), t);
      }
    }
  }

  /** The next step of unlock, closer to its end. */
  lemma UnlockMove(threads: nat, l: L.State, t: Tid) returns (l': L.State)
    requires L.Inv(threads, l) && t < threads && l.pc[t].Unlock?
    requires l.pc[t].up.Await? ==> l.nodes[t].next.Some?
    ensures InsideStep(threads, l, l', t) && t < |l'.pc|
    ensures l'.pc[t].Out? || (l'.pc[t].Unlock? && 0 <= LT.UnlockRank(l'.pc[t].up) < LT.UnlockRank(l.pc[t].up))
  {
    assert L.ThreadOk(threads, l, t);
    match l.pc[t].up
    case ReadNext(d) => l' := L.Goto(l, t, L.Unlock(if l.nodes[t].next.None? then L.ReadFlag(d) else L.Await));
    case ReadFlag(d) => l' := L.Goto(l, t, L.Unlock(L.CasFree(l.word.flag, d)));
    case CasFree(sleep, d) =>
      if l.word == L.Word(Some(t), sleep) {
        l' := L.Goto(l, t, if sleep then L.Unlock(L.NotifyAll) else L.Out).(word := L.FREE, left := l.left + 1);
      } else {
        l' := L.Goto(l, t, L.Unlock(if l.word.ptr == Some(t) then L.ReadNext(d + 1) else L.Await));
      }
    case Await => l' := L.Goto(l, t, L.Unlock(L.HandOver(l.nodes[t].next.value)));
    case HandOver(n) => l' := HandOverMove(threads, l, t, n);
    case NotifyOne(n) => l' := L.Goto(l.(pc := L.WakeOne(l.pc, n)), t, L.Unlock(L.ClearNext));
    case NotifyAll => l' := L.Goto(l.(pc := L.WakeAll(l.pc)), t, L.Out);
    case ClearNext => l' := L.Goto(L.SetNext(l, t, None), t, L.Out);
  }

  lemma HandOverMove(threads: nat, l: L.State, t: Tid, n: Tid) returns (l': L.State)
    requires L.Inv(threads, l) && t < threads && l.pc[t] == L.Unlock(L.HandOver(n))
    ensures L.HandStep(threads, l, l', t) && t < |l'.pc|
    ensures l'.pc[t].Unlock? && (l'.pc[t].up.NotifyOne? || l'.pc[t].up.ClearNext?)
  {
    assert L.ThreadOk(threads, l, t);
    assert L.PlaceOk(threads, l, l.left + 1);
    l' := L.Goto(L.SetField(l, n, L.Free), t,
                 L.Unlock(if l.nodes[n].field == L.Contended then L.NotifyOne(n)
                     else L.ClearNext)).(left := l.left + 1);
  }

  /** The missing link is stored by the next thread in the chain. */
  lemma {:induction false} LinkArrives(c: D.Config, x: State, t: Tid)
    requires ValidConfig(c) && Reachable(c, x) && Shape(c, x) && L.Inv(Threads(c), x.l) && Glue(c, x)
    requires t < Threads(c) && x.l.pc[t] == L.Unlock(L.Await) && x.l.nodes[t].next.None?
    ensures CanFinish(c, x)
    decreases LT.UnlockRank(x.l.pc[t].up), LinkRank(x.l), 0
  {
    var v, l' := LinkMove(Threads(c), x.l, t);
    InsideMove(c, x, l', v);
    UnlockFinishes(c, x.(l := l'), t);
  }

  lemma LinkMove(threads: nat, l: L.State, t: Tid) returns (v: Tid, l': L.State)
    requires L.Inv(threads, l) && t < threads && l.pc[t] == L.Unlock(L.Await) && l.nodes[t].next.None?
    ensures v < threads && InsideStep(threads, l, l', v) && v < |l'.pc| && l'.pc[v].Lock?
    ensures t < |l'.pc| && l'.pc[t] == l.pc[t] && LinkRank(l') < LinkRank(l)
    ensures l' != l && !Sleeping(l.pc[v])
  {
    assert L.ThreadOk(threads, l, t) && L.PlaceOk(threads, l, l.left + 1);
    v := l.joined[l.left + 1];
    assert L.ThreadOk(threads, l, v);
    var found := l.pc[v].lp.found;
    l' := if l.pc[v].lp.SetTaken? then L.Goto(L.SetField(l, v, L.Taken), v, L.Lock(L.Link(found)))
          else L.Goto(L.SetNext(l, found, Some(v)), v, L.Lock(L.Wait(L.Poll(0))));
  }

  // ---------- the thread that holds the lock ----------

  /** Where a thread in flight is writing. */
  lemma WriterFacts(c: D.Config, x: State, w: Tid)
    requires ValidConfig(c) && Reachable(c, x) && Shape(c, x) && w < Threads(c) && DI.Writing(x.d.pc[w])
    ensures
      var q := x.d.q[c.node[w]];
      var pc := x.d.pc[w];
      && |q.fn| == |q.cells| == c.entries && pc.index < c.entries
      && q.pos <= pc.k < |q.res| && q.res[pc.k].index == pc.index
      && q.res[pc.k].stage == (if pc.written then Q.Written else Q.Stage.Reserved)
  {
    ReachableInv(c, x);
  }

  /** A thread that has reserved an entry finishes on its own: publishing it is the end of its call. */
  lemma StoringFinishes(c: D.Config, x: State, w: Tid)
    requires ValidConfig(c) && Reachable(c, x) && Shape(c, x) && w < Threads(c) && x.d.pc[w].Storing?
    ensures CanFinish(c, x)
    decreases !x.d.pc[w].written
  {
    WriterFacts(c, x, w);
    CallFacts(c, x, w);
    var n, pc := c.node[w], x.d.pc[w];
    var q := x.d.q[n];
    if pc.written {
      var d' := D.Goto(x.d, w, D.Idle)
          .(q := x.d.q[n := Q.Publish(q, pc.index, Q.Wrapper, pc.k)], ops := D.Return(x.d.ops, pc.op));
      assert D.EnqueueStep(c, x.d, d', w);
      assert PlainStep(c, x, x.(d := d'), w);
      LockFacts(c, x);
      assert Fits(x.d.pc[w], x.l.pc[w]);
      Now(c, x, x.(d := d'), w, pc.op);
    } else {
      var d' := D.Goto(x.d, w, D.Storing(pc.op, pc.index, pc.k, true))
                .(q := x.d.q[n := Q.WriteEntry(q, pc.index, x.d.ops[pc.op].req, pc.op, pc.k)]);
      assert D.EnqueueStep(c, x.d, d', w);
      PlainMove(c, x, d', w);
      StoringFinishes(c, x.(d := d'), w);
    }
  }

  /** The next step of a thread that pads the end of the queue. */
  lemma PadMove(c: D.Config, x: State, w: Tid) returns (d': D.State)
    requires ValidConfig(c) && Reachable(c, x) && Shape(c, x) && w < Threads(c) && x.d.pc[w].Padding?
    ensures D.ThreadStep(c, x.d, d', w) && d'.ops == x.d.ops && |d'.pc| == |x.d.pc| && |d'.q| == |x.d.q|
    ensures forall u :: 0 <= u < Threads(c) && u != w ==> d'.pc[u] == x.d.pc[u]
    ensures if x.d.pc[w].written then d'.pc[w].Calling? && d'.pc[w].at.TryAgain?
            else d'.pc[w].Padding? && d'.pc[w].written
    ensures
      var pc := x.d.pc[w];
      var q := x.d.q[c.node[w]];
      && pc.k < |q.res|
      && d'.q[c.node[w]].res == q.res[pc.k := q.res[pc.k].(stage := if pc.written then Q.Published else Q.Written)]
      && d'.q[c.node[w]].pos == q.pos
      && q.res[pc.k].stage == (if pc.written then Q.Written else Q.Stage.Reserved)
  {
    WriterFacts(c, x, w);
    var n, pc := c.node[w], x.d.pc[w];
    var q := x.d.q[n];
    if pc.written {
      d' := D.Goto(x.d, w, D.Calling(pc.op, D.TryAgain(pc.retry)))
          .(q := x.d.q[n := Q.Publish(q, pc.index, Q.Nop, pc.k)]);
    } else {
      d' := D.Goto(x.d, w, D.Padding(pc.op, pc.retry, pc.index, pc.k, true))
            .(q := x.d.q[n := Q.WritePad(q, pc.index, c.entries - pc.index, pc.k)]);
    }
    assert D.EnqueueStep(c, x.d, d', w);
  }

  function Stage(pc: D.PC): nat {
    match pc
    case HLock(_, _) => 7
    case OpenQueue(_) => 6
    case Own(_, _, p) => if p.Scan? then 5 else 4
    case Flush(_, fp) => if fp.Fill? then 2 else 3
    case HUnlock(_) => 1
    case _ => 0
  }

  /** Whether the flush may still find new entries. */
  function MayGrow(pc: D.PC): nat {
    if pc.Flush? && (pc.fp.Load? || pc.fp.Close? || (pc.fp.Poll? && pc.fp.open) || (pc.fp.Entry? && pc.fp.open))
        then 1 else 0
  }

  /** Slots the flush has not passed, or not cleared, yet. */
  function Left(entries: nat, pc: D.PC): int {
    if !pc.Flush? then 0
    else match pc.fp
      case Load(done) => entries - done
      case Close(done) => entries - done
      case Poll(index, _, _) => entries - index
      case Entry(_, index, _, _) => entries - index
      case Fill(i, todo) => todo - i
  }

  function Sub(pc: D.PC): nat {
    if !pc.Flush? then 0
    else match pc.fp
      case Load(_) => 3
      case Close(_) => 2
      case Poll(_, _, _) => 1
      case _ => 0
  }

  /** How far the owner of the entry at the flush position is from publishing it. */
  function Unpublished(q: Q.Queue): nat {
    if q.pos < |q.res| then
      match q.res[q.pos].stage
      case Reserved => 2
      case Written => 1
      case Published => 0
    else 0
  }

  ghost predicate Closer(c: D.Config, pc: D.PC, pc': D.PC) {
    && 0 <= Left(c.entries, pc')
    && (|| Stage(pc') < Stage(pc)
        || (Stage(pc') == Stage(pc) && MayGrow(pc') < MayGrow(pc))
        || (Stage(pc') == Stage(pc) && MayGrow(pc') == MayGrow(pc) && Left(c.entries, pc') < Left(c.entries, pc))
        || (&& Stage(pc') == Stage(pc) && MayGrow(pc') == MayGrow(pc)
            && Left(c.entries, pc') == Left(c.entries, pc) && Sub(pc') < Sub(pc)))
  }

  /** The flush waits at a slot that has not been filled yet. */
  ghost predicate Awaits(c: D.Config, x: State, t: Tid)
    requires ValidConfig(c) && Shape(c, x) && t < Threads(c) && x.d.pc[t].Flush?
  {
    && x.d.pc[t].fp.Poll? && x.d.pc[t].fp.index < |x.d.q[c.node[t]].fn|
    && x.d.q[c.node[t]].fn[x.d.pc[t].fp.index] == Q.Null
  }

  /** What the invariant says about a flush in progress, in numbers. */
  lemma FlushFacts(c: D.Config, x: State, t: Tid)
    requires ValidConfig(c) && Reachable(c, x) && Shape(c, x) && t < Threads(c) && x.d.pc[t].Flush?
    ensures
      var q := x.d.q[c.node[t]];
      && |q.fn| == |q.cells| == c.entries
      && match x.d.pc[t].fp
         case Load(done) => done <= c.entries && done <= q.counter
         case Close(done) => done <= c.entries && done <= q.counter
         case Poll(index, todo, _) => index < todo <= c.entries
         case Entry(_, index, todo,
             _) => index < c.entries && q.cells[index].size >= 1 && index + q.cells[index].size <= todo <= c.entries
         case Fill(i, todo) => i < todo <= c.entries
  {
    ReachableInv(c, x);
    FlushFactsIn(c, x.d, t);
  }

  lemma FlushFactsIn(c: D.Config, d: D.State, t: Tid)
    requires D.ValidConfig(c) && D.Shape(c, d) && DI.Queues(c, d) && t < |d.pc| && d.pc[t].Flush?
    ensures
      var q := d.q[c.node[t]];
      && |q.fn| == |q.cells| == c.entries
      && match d.pc[t].fp
         case Load(done) => done <= c.entries && done <= q.counter
         case Close(done) => done <= c.entries && done <= q.counter
         case Poll(index, todo, _) => index < todo <= c.entries
         case Entry(_, index, todo,
             _) => index < c.entries && q.cells[index].size >= 1 && index + q.cells[index].size <= todo <= c.entries
         case Fill(i, todo) => i < todo <= c.entries
  {
    assert DI.Phase(c.entries, d.q[c.node[t]], d.pc[t]);
    PhaseInNumbers(c.entries, d.q[c.node[t]], d.pc[t].op, d.pc[t].fp);
  }

  lemma PhaseInNumbers(entries: nat, q: Q.Queue, op: OpId, fp: D.FlushPoint)
    requires Q.Wf(entries, q) && DI.Phase(entries, q, D.Flush(op, fp))
    ensures
      match fp
      case Load(done) => done <= entries && done <= q.counter
      case Close(done) => done <= entries && done <= q.counter
      case Poll(index, todo, _) => index < todo <= entries
      case Entry(_, index, todo,
          _) => index < entries && q.cells[index].size >= 1 && index + q.cells[index].size <= todo <= entries
      case Fill(i, todo) => i < todo <= entries
  {
    StartsOrdered(entries, q);
    if fp.Entry? {
      DQ.NextEntry(entries, q);
    }
  }

  lemma StartsOrdered(entries: nat, q: Q.Queue)
    requires Q.Wf(entries, q)
    ensures Q.Start(q.res, q.pos) <= Q.Start(q.res, q.lim) <= Q.End(q) <= entries
    ensures q.pos < q.lim ==> Q.Start(q.res, q.pos) < Q.Start(q.res, q.pos + 1) <= Q.Start(q.res, q.lim)
  {
    Q.StartMonotone(q.res, q.lim, |q.res|);
    Q.StartMonotone(q.res, q.pos, q.lim);
    if q.pos < q.lim {
      Q.StartMonotone(q.res, q.pos, q.pos + 1);
      Q.StartMonotone(q.res, q.pos + 1, q.lim);
    }
  }

  lemma CloserAfterLoad(c: D.Config, op: OpId, done: nat, todo: nat, open: bool)
    requires done <= todo <= c.entries && (open ==> done < todo)
    ensures Closer(c, D.Flush(op, D.Load(done)), D.AfterEntries(op, done, todo, open))
    ensures Closer(c, D.Flush(op, D.Close(done)), D.AfterEntries(op, done, todo, false))
  {
  }

  lemma CloserAfterEntry(c: D.Config, op: OpId, f: Q.Fn, index: nat, next: nat, todo: nat, open: bool)
    requires index < next <= todo <= c.entries
    ensures Closer(c, D.Flush(op, D.Entry(f, index, todo, open)), D.AfterEntries(op, next, todo, open))
  {
  }

  /** The next step of flush, unless it waits for an entry. */
  lemma FlushMove(c: D.Config, x: State, t: Tid) returns (d': D.State)
    requires ValidConfig(c) && Reachable(c, x) && Shape(c, x) && t < Threads(c) && x.d.pc[t].Flush? && !Awaits(c, x, t)
    ensures D.FlushStep(c, x.d, d', t) && |d'.ops| == |x.d.ops| && |d'.pc| == |x.d.pc|
    ensures Closer(c, x.d.pc[t], d'.pc[t])
  {
    FlushFacts(c, x, t);
    if x.d.pc[t].fp.Load? || x.d.pc[t].fp.Close? {
      d' := LoadMove(c, x, t);
    } else {
      d' := DrainMove(c, x, t);
    }
  }

  lemma LoadMove(c: D.Config, x: State, t: Tid) returns (d': D.State)
    requires ValidConfig(c) && Shape(c, x) && t < Threads(c) && x.d.pc[t].Flush?
    requires (x.d.pc[t].fp.Load? || x.d.pc[t].fp.Close?)
    requires x.d.pc[t].fp.done <= c.entries && x.d.pc[t].fp.done <= x.d.q[c.node[t]].counter
    ensures D.FlushStep(c, x.d, d', t) && |d'.ops| == |x.d.ops| && |d'.pc| == |x.d.pc|
    ensures Closer(c, x.d.pc[t], d'.pc[t])
  {
    var n, op, done := c.node[t], x.d.pc[t].op, x.d.pc[t].fp.done;
    var q := x.d.q[n];
    var todo := Min(q.counter, c.entries);
    if x.d.pc[t].fp.Load? && q.counter == done {
      d' := D.Goto(x.d, t, D.Flush(op, D.Close(done)));
    } else {
      var load := x.d.pc[t].fp.Load?;
      CloserAfterLoad(c, op, done, todo, load && q.counter < c.entries);
      d' := D.Goto(x.d, t, D.AfterEntries(op, done, todo, load && q.counter < c.entries))
            .(q := x.d.q[n := if load then Q.LoadTodo(c.entries, q) else Q.Close(c.entries, q)]);
    }
  }

  lemma DrainMove(c: D.Config, x: State, t: Tid) returns (d': D.State)
    requires ValidConfig(c) && Shape(c, x) && t < Threads(c) && x.d.pc[t].Flush? && !Awaits(c, x, t)
    requires |x.d.q[c.node[t]].fn| == |x.d.q[c.node[t]].cells| == c.entries
    requires
      match x.d.pc[t].fp
      case Poll(index, todo, _) => index < todo <= c.entries
      case Entry(_, index, todo, _) =>
        && index < c.entries && x.d.q[c.node[t]].cells[index].size >= 1
        && index + x.d.q[c.node[t]].cells[index].size <= todo <= c.entries
      case Fill(i, todo) => i < todo <= c.entries
      case _ => false
    ensures D.FlushStep(c, x.d, d', t) && |d'.ops| == |x.d.ops| && |d'.pc| == |x.d.pc|
    ensures Closer(c, x.d.pc[t], d'.pc[t])
  {
    var n, op := c.node[t], x.d.pc[t].op;
    var q := x.d.q[n];
    match x.d.pc[t].fp
    case Poll(index, todo, open) =>
      d' := D.Goto(x.d, t, D.Flush(op, D.Entry(q.fn[index], index, todo, open)));
    case Entry(f, index, todo, open) =>
      CloserAfterEntry(c, op, f, index, index + q.cells[index].size, todo, open);
      d' := D.Executed(c, x.d, t, op, f, index, todo, open);
    case Fill(i, todo) =>
      d' := D.Goto(x.d, t, if i + 1 < todo then D.Flush(op, D.Fill(i + 1, todo))
          else D.HUnlock(op)).(q := x.d.q[n := Q.ClearSlot(q, i)]);
  }

  /** The next step of helper or executor outside flush. */
  lemma HolderMove(c: D.Config, x: State, t: Tid) returns (d': D.State)
    requires ValidConfig(c) && Reachable(c, x) && Shape(c, x) && t < Threads(c) && D.HoldsMutex(x.d.pc[t])
    requires !x.d.pc[t].Flush? && !x.d.pc[t].MUnlock? && (x.d.pc[t].Own? ==> x.d.pc[t].point.Section?)
    ensures D.ThreadStep(c, x.d, d', t) && |d'.ops| == |x.d.ops| && |d'.pc| == |x.d.pc|
    ensures Closer(c, x.d.pc[t], d'.pc[t])
  {
    var n, pc := c.node[t], x.d.pc[t];
    match pc
    case HLock(op, helper) =>
      d' := D.Goto(x.d, t, if helper then D.OpenQueue(op) else D.Own(op, false, D.Scan(0)));
      assert D.GuardStep(c, x.d, d', t);
    case HUnlock(op) =>
      d' := D.Goto(x.d, t, D.MUnlock(op));
      assert D.GuardStep(c, x.d, d', t);
    case OpenQueue(op) =>
      d' := D.Goto(x.d, t, D.Own(op, true, D.Scan(0))).(q := x.d.q[n := Q.Open(x.d.q[n])]);
      assert D.OwnStep(c, x.d, d', t);
    case Own(_, _, _) => d' := OwnMove(c, x.d, t);
  }

  lemma OwnMove(c: D.Config, d: D.State, t: Tid) returns (d': D.State)
    requires ValidConfig(c) && D.Shape(c, d) && t < Threads(c) && d.pc[t].Own? && d.pc[t].point.Section?
    ensures D.OwnStep(c, d, d', t) && |d'.ops| == |d.ops| && |d'.pc| == |d.pc|
    ensures Closer(c, d.pc[t], d'.pc[t])
  {
    var op, helper := d.pc[t].op, d.pc[t].helper;
    d' := D.Goto(d, t, if helper then D.Flush(op, D.Load(0)) else D.HUnlock(op))
          .(log := d.log + [op], ops := D.SetStatus(d.ops, op, D.Logged(|d.log|)));
  }

  /** The holder runs its section, drains the queue and unlocks. */
  lemma {:induction false} HolderFinishes(c: D.Config, x: State, t: Tid)
    requires ValidConfig(c) && Reachable(c, x) && Shape(c, x) && L.Inv(Threads(c), x.l) && Glue(c, x)
    requires t < Threads(c) && x.l.pc[t].Holding? && 0 <= Left(c.entries, x.d.pc[t])
    ensures CanFinish(c, x)
    decreases Stage(x.d.pc[t]), MayGrow(x.d.pc[t]), Left(c.entries, x.d.pc[t]), Sub(x.d.pc[t]),
        Unpublished(x.d.q[c.node[t]]), 1
  {
    assert Fits(x.d.pc[t], x.l.pc[t]);
    if x.d.pc[t].MUnlock? {
      UnlockBegins(c, x, t);
    } else if x.d.pc[t].Flush? && Awaits(c, x, t) {
      EntryArrives(c, x, t);
    } else if x.d.pc[t].Own? && x.d.pc[t].point.Scan? {
      var y := ScanPasses(c, x, t);
      HolderFinishes(c, y, t);
    } else {
      var y := HolderGoesOn(c, x, t);
      HolderFinishes(c, y, t);
    }
  }

  /** A step of the holder that is neither a wait nor the unlock. */
  lemma HolderGoesOn(c: D.Config, x: State, t: Tid) returns (y: State)
    requires ValidConfig(c) && Reachable(c, x) && Shape(c, x) && t < Threads(c) && D.HoldsMutex(x.d.pc[t])
    requires !x.d.pc[t].MUnlock? && (x.d.pc[t].Flush? ==> !Awaits(c, x, t))
    requires x.d.pc[t].Own? ==> x.d.pc[t].point.Section?
    ensures Leads(c, x, y) && y.l == x.l && Closer(c, x.d.pc[t], y.d.pc[t])
  {
    var d' := HolderNext(c, x, t);
    PlainMove(c, x, d', t);
    y := x.(d := d');
  }

  lemma HolderNext(c: D.Config, x: State, t: Tid) returns (d': D.State)
    requires ValidConfig(c) && Reachable(c, x) && Shape(c, x) && t < Threads(c) && D.HoldsMutex(x.d.pc[t])
    requires !x.d.pc[t].MUnlock? && (x.d.pc[t].Flush? ==> !Awaits(c, x, t))
    requires x.d.pc[t].Own? ==> x.d.pc[t].point.Section?
    ensures D.ThreadStep(c, x.d, d', t) && |d'.ops| == |x.d.ops| && |d'.pc| == |x.d.pc|
    ensures Closer(c, x.d.pc[t], d'.pc[t])
  {
    if x.d.pc[t].Flush? {
      d' := FlushMove(c, x, t);
    } else {
      d' := HolderMove(c, x, t);
    }
  }

  lemma UnlockBegins(c: D.Config, x: State, t: Tid)
    requires ValidConfig(c) && Reachable(c, x) && Shape(c, x) && L.Inv(Threads(c), x.l) && Glue(c, x)
    requires t < Threads(c) && x.l.pc[t].Holding? && x.d.pc[t].MUnlock?
    ensures CanFinish(c, x)
  {
    var d' := D.Goto(x.d, t, D.Leaving(x.d.pc[t].op)).(mutex := x.d.mutex[c.node[t] := None]);
    var x' := State(d', L.Goto(x.l, t, L.Unlock(L.ReadNext(0))));
    assert BeginUnlock(c, x, x', t);
    OneMove(c, x, x', t);
    UnlockFinishes(c, x', t);
  }

  /** Who fills the slot the flush waits for. */
  lemma AwaitedWriter(c: D.Config, x: State, t: Tid) returns (w: Tid)
    requires ValidConfig(c) && Reachable(c, x) && Shape(c, x) && t < Threads(c) && x.d.pc[t].Flush? && Awaits(c, x, t)
    ensures w < Threads(c) && w != t && c.node[w] == c.node[t] && DI.Writing(x.d.pc[w])
    ensures x.d.pc[w].k == x.d.q[c.node[t]].pos
  {
    ReachableInv(c, x);
    w := AwaitedWriterIn(c, x.d, t);
  }

  lemma AwaitedWriterIn(c: D.Config, d: D.State, t: Tid) returns (w: Tid)
    requires D.ValidConfig(c) && D.Shape(c, d) && DI.Queues(c, d) && DI.Writers(c, d) && t < |d.pc| && d.pc[t].Flush?
    requires d.pc[t].fp.Poll?
    requires d.pc[t].fp.index < |d.q[c.node[t]].fn| && d.q[c.node[t]].fn[d.pc[t].fp.index] == Q.Null
    ensures w < |d.pc| && w != t && c.node[w] == c.node[t] && DI.Writing(d.pc[w])
    ensures d.pc[w].k == d.q[c.node[t]].pos
  {
    var q := d.q[c.node[t]];
    assert DI.Phase(c.entries, q, d.pc[t]);
    assert Q.Follows(q.res, q.pos) && Q.Stored(q.fn, q.cells, q.res[q.pos]);
    w := q.res[q.pos].owner;
  }

  lemma PadArrives(c: D.Config, x: State, t: Tid, w: Tid) returns (d': D.State)
    requires ValidConfig(c) && Reachable(c, x) && Shape(c, x) && t < Threads(c) && w < Threads(c) && w != t
    requires c.node[w] == c.node[t] && x.d.pc[w].Padding? && x.d.pc[w].k == x.d.q[c.node[t]].pos
    ensures Reachable(c, x.(d := d')) && Shape(c, x.(d := d')) && Glue(c, x.(d := d')) && L.Inv(Threads(c), x.l)
    ensures CanFinish(c, x.(d := d')) ==> CanFinish(c, x)
    ensures d'.pc[t] == x.d.pc[t] && Unpublished(d'.q[c.node[t]]) < Unpublished(x.d.q[c.node[t]])
  {
    d' := PadMove(c, x, w);
    assert d'.pc[w] != x.d.pc[w];
    PadCounts(x.d.q[c.node[t]], d'.q[c.node[t]], x.d.pc[w].k, x.d.pc[w].written);
    PlainMove(c, x, d', w);
  }

  lemma PadCounts(q: Q.Queue, q': Q.Queue, k: nat, written: bool)
    requires k < |q.res| && q'.res == q.res[k := q.res[k].(stage := if written then Q.Published else Q.Written)]
    requires q'.pos == q.pos == k && q.res[k].stage == (if written then Q.Written else Q.Stage.Reserved)
    ensures Unpublished(q') < Unpublished(q)
  {
  }

  /** The awaited writer either finishes its call or brings the flush one step closer. */
  lemma {:induction false} EntryArrives(c: D.Config, x: State, t: Tid)
    requires ValidConfig(c) && Reachable(c, x) && Shape(c, x) && L.Inv(Threads(c), x.l) && Glue(c, x)
    requires t < Threads(c) && x.l.pc[t].Holding? && x.d.pc[t].Flush? && Awaits(c, x, t)
    requires 0 <= Left(c.entries, x.d.pc[t])
    ensures CanFinish(c, x)
    decreases Stage(x.d.pc[t]), MayGrow(x.d.pc[t]), Left(c.entries, x.d.pc[t]), Sub(x.d.pc[t]),
        Unpublished(x.d.q[c.node[t]]), 0
  {
    var w := AwaitedWriter(c, x, t);
    if x.d.pc[w].Storing? {
      StoringFinishes(c, x, w);
    } else {
      var d' := PadArrives(c, x, t, w);
      HolderFinishes(c, x.(d := d'), t);
    }
  }

  // ---------- taking over the lock ----------

  /** A locking call of t succeeds. */
  lemma AcquireMove(c: D.Config, x: State, l': L.State, t: Tid)
    requires ValidConfig(c) && Reachable(c, x) && Shape(c, x) && Glue(c, x) && t < Threads(c)
    requires InsideStep(Threads(c), x.l, l', t) && t < |l'.pc| && l'.pc[t].Holding?
    requires (x.l.pc[t].Lock? || x.l.pc[t].Try?)
    requires !Sleeping(x.l.pc[t])
    ensures CanFinish(c, x)
  {
    assert Fits(x.d.pc[t], x.l.pc[t]);
    var x' := State(D.Acquire(c, x.d, t, x.d.pc[t].at.TryAgain?), l');
    assert ThreadStep(c, x, x', t) by {
      assert LockStep(c, x, x', t);
    }
    OneMove(c, x, x', t);
    HolderFinishes(c, x', t);
  }

  function WaitRank(wp: L.WaitPoint): nat {
    match wp
    case Poll(i) => if i < L.SPIN_LIMIT then 10 + (L.SPIN_LIMIT - i) else 10
    case Check => 4
    case Contend => 3
    case Futex => 2
    case Test => 1
    case Asleep => 0
  }

  /** The next step of the head of the chain, which has been handed the lock and is awake. */
  lemma HeadMove(threads: nat, l: L.State, t: Tid) returns (l': L.State)
    requires L.Inv(threads, l) && t < threads && L.Linked(l.pc[t]) && l.slot[t] == l.left
    requires l.pc[t] != L.Lock(L.Wait(L.Asleep))
    ensures InsideStep(threads, l, l', t) && t < |l'.pc| && l'.slot == l.slot && l'.left == l.left
    ensures !l'.pc[t].Holding? ==> L.Linked(l'.pc[t]) && l'.pc[t] != L.Lock(L.Wait(L.Asleep))
    ensures !l'.pc[t].Holding? ==> WaitRank(l'.pc[t].lp.wp) < WaitRank(l.pc[t].lp.wp)
  {
    assert L.ThreadOk(threads, l, t);
    match l.pc[t].lp.wp
    case Poll(i) => l' := L.Goto(l, t, L.Lock(L.Wait(L.Check)));
    case Check => l' := L.Goto(l, t, L.Lock(L.Wait(L.Test)));
    case Contend => l' := L.Acquired(l, t);
    case Test => l' := L.Acquired(l, t);
    case Futex => l' := L.Goto(l, t, L.Lock(L.Wait(L.Test)));
    assert L.WaitStep(threads, l, l', t);
  }

  lemma {:induction false} HeadFinishes(c: D.Config, x: State, t: Tid)
    requires ValidConfig(c) && Reachable(c, x) && Shape(c, x) && L.Inv(Threads(c), x.l) && Glue(c, x)
    requires t < Threads(c) && L.Linked(x.l.pc[t]) && x.l.slot[t] == x.l.left && x.l.pc[t] != L.Lock(L.Wait(L.Asleep))
    ensures CanFinish(c, x)
    decreases WaitRank(x.l.pc[t].lp.wp)
  {
    var l' := HeadMove(Threads(c), x.l, t);
    if l'.pc[t].Holding? {
      AcquireMove(c, x, l', t);
    } else {
      InsideMove(c, x, l', t);
      HeadFinishes(c, x.(l := l'), t);
    }
  }

  /** While the lock is taken, the head of the chain makes progress. */
  lemma TakenFinishes(c: D.Config, x: State)
    requires ValidConfig(c) && Reachable(c, x) && Shape(c, x) && L.Inv(Threads(c), x.l) && Glue(c, x)
    requires x.l.left < |x.l.joined|
    ensures CanFinish(c, x)
  {
    assert L.PlaceOk(Threads(c), x.l, x.l.left);
    var h := x.l.joined[x.l.left];
    assert L.ThreadOk(Threads(c), x.l, h);
    if x.l.pc[h].Holding? {
      assert Fits(x.d.pc[h], x.l.pc[h]);
      if x.d.pc[h].Flush? {
        FlushFacts(c, x, h);
      }
      HolderFinishes(c, x, h);
    } else if x.l.pc[h].Unlock? {
      UnlockFinishes(c, x, h);
    } else if x.l.pc[h] == L.Lock(L.Wait(L.Asleep)) {
      assert L.WillWake(x.l, h);
      var u: Tid :| u < |x.l.pc| && x.l.pc[u] == L.Unlock(L.NotifyOne(h));
      UnlockFinishes(c, x, u);
    } else {
      HeadFinishes(c, x, h);
    }
  }

  // ---------- calls while the lock is free ----------

  /** While the lock is free no queue is open. */
  lemma FreeFacts(c: D.Config, x: State, t: Tid)
    requires ValidConfig(c) && Reachable(c, x) && Shape(c, x) && t < Threads(c) && x.l.left == |x.l.joined|
    ensures x.l.word == L.FREE && !L.Member(x.l.pc[t])
    ensures x.d.q[c.node[t]].counter >= c.entries && !D.HoldsMutex(x.d.pc[t])
  {
    ReachableInv(c, x);
    FreeLock(Threads(c), x.l, t);
    FreeWordFreeMutex(c, x);
    ClosedWithoutHelper(c, x.d, t);
    OutsideGuard(c, x, t);
  }

  lemma FreeLock(threads: nat, l: L.State, t: Tid)
    requires L.Inv(threads, l) && t < threads && l.left == |l.joined|
    ensures l.word == L.FREE && !L.Member(l.pc[t])
  {
    assert L.ThreadOk(threads, l, t);
  }

  lemma OutsideGuard(c: D.Config, x: State, t: Tid)
    requires ValidConfig(c) && Shape(c, x) && Glue(c, x) && t < Threads(c) && !L.Member(x.l.pc[t])
    ensures !D.HoldsMutex(x.d.pc[t])
  {
    assert Fits(x.d.pc[t], x.l.pc[t]);
  }

  lemma ClosedWithoutHelper(c: D.Config, d: D.State, t: Tid)
    requires ValidConfig(c) && D.Shape(c, d) && DI.Queues(c, d) && t < Threads(c) && d.mutex[0] == None
    ensures d.q[c.node[t]].counter >= c.entries
  {
    assert !DI.Helped(c, d, c.node[t]);
  }

  function InsideRank(l: L.PC): nat {
    match l
    case Out => 10
    case Try(FutexWord(_)) => 16
    case Try(Woken) => 15
    case Try(CasFlag(_)) => 9
    case Try(LoadWord) => 9
    case Try(IsLocked) => 8
    case Lock(Load) => 8
    case Lock(Cas(current)) => if current == L.FREE then 6 else 7
    case _ => 6
  }

  /** How far a call is from taking the free lock. */
  function CallRank(d: D.PC, l: L.PC, counter: nat): nat {
    if d.Padding? then (if d.written then 19 else 20)
    else if Locking(d) then InsideRank(l)
    else if !d.Calling? then 0
    else match d.at
      case WaitWriters => 18
      case LoadCounter(_) => 14
      case Reserve(_, expected) => if expected == counter then 12 else 13
      case _ => 0
  }

  function Rank(c: D.Config, x: State, t: Tid): nat
    requires ValidConfig(c) && Shape(c, x) && t < Threads(c)
  {
    CallRank(x.d.pc[t], x.l.pc[t], x.d.q[c.node[t]].counter)
  }

  /** The next step of delegate outside the lock: the queue is closed, so an attempt to lock follows. */
  lemma CallerMove(c: D.Config, x: State, t: Tid) returns (d': D.State)
    requires ValidConfig(c) && Reachable(c, x) && Shape(c, x) && t < Threads(c) && x.l.left == |x.l.joined|
    requires x.d.pc[t].Calling? && !Locking(x.d.pc[t]) && x.l.pc[t].Out?
    requires x.d.pc[t].at.WaitWriters? ==> x.d.barrier <= 0
    ensures D.ThreadStep(c, x.d, d', t) && |d'.ops| == |x.d.ops| && Shape(c, x.(d := d')) && D.HasCall(d'.pc[t])
    ensures Rank(c, x.(d := d'), t) < Rank(c, x, t)
  {
    FreeFacts(c, x, t);
    CallFacts(c, x, t);
    var op, q := x.d.pc[t].op, x.d.q[c.node[t]];
    match x.d.pc[t].at
    case WaitWriters =>
      d' := D.Goto(x.d, t, D.Calling(op, if x.d.ops[op].direct then D.LockSlow else D.TryFirst));
      assert D.CallStep(c, x.d, d', t);
    case LoadCounter(retry) =>
      d' := D.Goto(x.d, t, D.Calling(op, D.TryAgain(retry)));
      assert D.EnqueueStep(c, x.d, d', t);
    case Reserve(retry, expected) =>
      d' := ReserveMove(c, x, t);
  }

  lemma ReserveMove(c: D.Config, x: State, t: Tid) returns (d': D.State)
    requires ValidConfig(c) && Shape(c, x) && t < Threads(c) && x.l.pc[t].Out?
    requires x.d.pc[t].Calling? && x.d.pc[t].at.Reserve? && x.d.q[c.node[t]].counter >= c.entries
    requires x.d.pc[t].op < |x.d.ops| && 1 <= x.d.ops[x.d.pc[t].op].req <= c.maxReq
    ensures D.EnqueueStep(c, x.d, d', t) && |d'.ops| == |x.d.ops| && Shape(c, x.(d := d')) && D.HasCall(d'.pc[t])
    ensures Rank(c, x.(d := d'), t) < Rank(c, x, t)
  {
    var op, q := x.d.pc[t].op, x.d.q[c.node[t]];
    if x.d.pc[t].at.expected == q.counter {
      d' := D.Reserved(c, x.d, t, op, x.d.pc[t].at.retry);
      assert d'.pc[t] == D.Calling(op, D.TryAgain(x.d.pc[t].at.retry));
    } else if c.cas {
      d' := D.Goto(x.d, t, D.Calling(op, D.Reserve(x.d.pc[t].at.retry, q.counter)));
    } else {
      d' := D.Reserved(c, x.d, t, op, x.d.pc[t].at.retry);
      assert d'.pc[t] == D.Calling(op, D.TryAgain(x.d.pc[t].at.retry));
    }
  }

  /** The next step inside a locking call, while the lock is free. */
  lemma AttemptMove(threads: nat, l: L.State, t: Tid) returns (l': L.State)
    requires L.Inv(threads, l) && t < threads && l.left == |l.joined| && (l.pc[t].Lock? || l.pc[t].Try?)
    requires l.pc[t] != L.Try(L.AsleepWord)
    ensures InsideStep(threads, l, l', t) && L.Shape(threads, l')
    ensures l'.pc[t].Holding? || (l'.left ==
        |l'.joined| && InsideRank(l'.pc[t]) < InsideRank(l.pc[t]) && l'.pc[t] != L.Try(L.AsleepWord))
    ensures !l'.pc[t].Holding? ==> InsideRank(l'.pc[t]) < InsideRank(l.pc[t])
    ensures l'.pc[t].Out? ==> InsideRank(l.pc[t]) >= 15 && l.pc[t].Try?
  {
    assert L.ThreadOk(threads, l, t);
    match l.pc[t]
    case Lock(Load) => l' := L.Goto(l, t, L.Lock(L.Cas(L.FREE)));
    case Lock(Cas(current)) =>
      l' := if current == L.FREE then L.Acquired(L.Join(l, t, L.Word(Some(t), current.flag)), t)
          else L.Goto(l, t, L.Lock(L.Cas(L.FREE)));
    case Try(IsLocked) => l' := L.Goto(l, t, L.Try(L.CasTry));
    case Try(CasTry) => l' := L.Acquired(L.Join(l, t, L.Word(Some(t), false)), t);
    case Try(LoadWord) => l' := L.Goto(l, t, L.AfterRead(l.word, l.word.(flag := true)));
    case Try(CasTake(_)) => l' := L.Acquired(L.Join(l, t, L.Word(Some(t), false)), t);
    case Try(CasFlag(seen)) => l' := L.Goto(l, t, L.AfterRead(l.word, seen.(flag := true)));
    case Try(FutexWord(_)) => l' := L.Goto(l, t, L.Out);
    case Try(Woken) => l' := L.Goto(l, t, L.Out);
  }

  lemma RefusedRank(c: D.Config, x: State, l': L.State, t: Tid)
    requires ValidConfig(c) && Shape(c, x) && t < Threads(c) && L.Shape(Threads(c), l') && l'.pc[t].Out?
    requires Locking(x.d.pc[t]) && !x.d.pc[t].at.LockSlow? && InsideRank(x.l.pc[t]) >= 15
    ensures Rank(c, State(Refused(c, x.d, t), l'), t) < Rank(c, x, t)
  {
  }

  /** A refused attempt leads back to the retry loop. */
  lemma RefusedMove(c: D.Config, x: State, l': L.State, t: Tid) returns (x': State)
    requires ValidConfig(c) && Reachable(c, x) && Shape(c, x) && Glue(c, x) && t < Threads(c)
    requires InsideStep(Threads(c), x.l, l', t) && L.Shape(Threads(c), l') && l'.pc[t].Out? && x.l.pc[t].Try?
    requires InsideRank(x.l.pc[t]) >= 15
    ensures Reachable(c, x') && Shape(c, x') && L.Inv(Threads(c), x'.l) && Glue(c, x') && x'.l == l'
    ensures D.HasCall(x'.d.pc[t])
    ensures Rank(c, x', t) < Rank(c, x, t)
    ensures CanFinish(c, x') ==> CanFinish(c, x)
  {
    assert Fits(x.d.pc[t], x.l.pc[t]);
    x' := State(Refused(c, x.d, t), l');
    assert ThreadStep(c, x, x', t) by {
      assert LockStep(c, x, x', t);
    }
    RefusedRank(c, x, l', t);
    OneMove(c, x, x', t);
  }

  lemma BeginRank(c: D.Config, x: State, t: Tid)
    requires ValidConfig(c) && Shape(c, x) && t < Threads(c) && Locking(x.d.pc[t]) && x.l.pc[t].Out?
    ensures Rank(c, x.(l := L.Goto(x.l, t, Entry(x.d.pc[t]))), t) < Rank(c, x, t)
  {
  }

  /** Calling a locking operation. */
  lemma BeginMove(c: D.Config, x: State, t: Tid) returns (x': State)
    requires ValidConfig(c) && Reachable(c, x) && Shape(c, x) && t < Threads(c) && Locking(x.d.pc[t]) && x.l.pc[t].Out?
    ensures Reachable(c, x') && Shape(c, x') && L.Inv(Threads(c), x'.l) && Glue(c, x') && D.HasCall(x'.d.pc[t])
    ensures x'.l.left == x.l.left && x'.l.joined == x.l.joined && Rank(c, x', t) < Rank(c, x, t)
    ensures CanFinish(c, x') ==> CanFinish(c, x)
  {
    x' := x.(l := L.Goto(x.l, t, Entry(x.d.pc[t])));
    BeginRank(c, x, t);
    assert ThreadStep(c, x, x', t) by {
      assert BeginLock(c, x, x', t);
    }
    OneMove(c, x, x', t);
  }

  /** A sleeper on the word of a free lock has a thread on its way to wake it. */
  lemma WakerFinishes(c: D.Config, x: State, t: Tid)
    requires ValidConfig(c) && Reachable(c, x) && Shape(c, x) && L.Inv(Threads(c), x.l) && Glue(c, x)
    requires t < Threads(c) && x.l.pc[t] == L.Try(L.AsleepWord) && x.l.word == L.FREE
    ensures CanFinish(c, x)
  {
    assert L.WillWakeAll(x.l);
    var u: Tid :| u < |x.l.pc| && x.l.pc[u] == L.Unlock(L.NotifyAll);
    UnlockFinishes(c, x, u);
  }

  /** Outside the lock a call goes on, waiting at most for readers that raised the barrier. */
  lemma CallerNext(c: D.Config, x: State, t: Tid) returns (y: State)
    requires ValidConfig(c) && Reachable(c, x) && Shape(c, x) && L.Inv(Threads(c), x.l) && Glue(c, x)
    requires t < Threads(c) && x.l.left == |x.l.joined| && x.d.pc[t].Calling? && !Locking(x.d.pc[t])
    ensures Leads(c, x, y) && y.l == x.l && D.HasCall(y.d.pc[t]) && Rank(c, y, t) < Rank(c, x, t)
  {
    FreeFacts(c, x, t);
    assert Fits(x.d.pc[t], x.l.pc[t]);
    var z := x;
    if x.d.pc[t].at.WaitWriters? {
      z := BarrierFalls(c, x, t);
    }
    var d' := CallerMove(c, z, t);
    PlainMove(c, z, d', t);
    y := z.(d := d');
  }

  /** The lock is free: the call takes it, or is helped to its end. */
  lemma {:induction false} CallerFinishes(c: D.Config, x: State, t: Tid)
    requires ValidConfig(c) && Reachable(c, x) && Shape(c, x) && L.Inv(Threads(c), x.l) && Glue(c, x)
    requires t < Threads(c) && x.l.left == |x.l.joined| && D.HasCall(x.d.pc[t])
    ensures CanFinish(c, x)
    decreases Rank(c, x, t)
  {
    FreeFacts(c, x, t);
    assert Fits(x.d.pc[t], x.l.pc[t]);
    if x.d.pc[t].Storing? {
      StoringFinishes(c, x, t);
    } else if x.d.pc[t].Leaving? {
      UnlockFinishes(c, x, t);
    } else if x.d.pc[t].Padding? {
      var d' := PadMove(c, x, t);
      PlainMove(c, x, d', t);
      CallerFinishes(c, x.(d := d'), t);
    } else if !Locking(x.d.pc[t]) {
      var y := CallerNext(c, x, t);
      CallerFinishes(c, y, t);
    } else if x.l.pc[t].Out? {
      var x' := BeginMove(c, x, t);
      CallerFinishes(c, x', t);
      assert CanFinish(c, x);
    } else if x.l.pc[t] == L.Try(L.AsleepWord) {
      WakerFinishes(c, x, t);
    } else {
      var taken, x' := AttemptNext(c, x, t);
      if !taken {
        CallerFinishes(c, x', t);
      }
    }
  }

  /** A step inside a locking call takes the lock, or leads closer to doing so. */
  lemma AttemptNext(c: D.Config, x: State, t: Tid) returns (taken: bool, x': State)
    requires ValidConfig(c) && Reachable(c, x) && Shape(c, x) && L.Inv(Threads(c), x.l) && Glue(c, x)
    requires t < Threads(c) && x.l.left == |x.l.joined| && Locking(x.d.pc[t])
    requires (x.l.pc[t].Lock? || x.l.pc[t].Try?) && x.l.pc[t] != L.Try(L.AsleepWord)
    ensures taken ==> CanFinish(c, x)
    ensures !taken ==>
      && Reachable(c, x') && Shape(c, x') && L.Inv(Threads(c), x'.l) && Glue(c, x')
      && x'.l.left == |x'.l.joined| && D.HasCall(x'.d.pc[t]) && Rank(c, x', t) < Rank(c, x, t)
      && (CanFinish(c, x') ==> CanFinish(c, x))
  {
    var l' := AttemptMove(Threads(c), x.l, t);
    taken := l'.pc[t].Holding?;
    if taken {
      AcquireMove(c, x, l', t);
      x' := x;
    } else {
      x' := AttemptGoesOn(c, x, l', t);
    }
  }

  lemma AttemptGoesOn(c: D.Config, x: State, l': L.State, t: Tid) returns (x': State)
    requires ValidConfig(c) && Reachable(c, x) && Shape(c, x) && Glue(c, x) && t < Threads(c) && Locking(x.d.pc[t])
    requires InsideStep(Threads(c), x.l, l', t) && L.Shape(Threads(c), l') && !l'.pc[t].Holding? && !Sleeping(x.l.pc[t])
    requires InsideRank(l'.pc[t]) < InsideRank(x.l.pc[t])
    requires l'.pc[t].Out? ==> InsideRank(x.l.pc[t]) >= 15 && x.l.pc[t].Try?
    ensures Reachable(c, x') && Shape(c, x') && L.Inv(Threads(c), x'.l) && Glue(c, x')
    ensures x'.l == l' && D.HasCall(x'.d.pc[t]) && Rank(c, x', t) < Rank(c, x, t)
    ensures CanFinish(c, x') ==> CanFinish(c, x)
  {
    if l'.pc[t].Out? {
      x' := RefusedMove(c, x, l', t);
    } else {
      x' := x.(l := l');
      InsideMove(c, x, l', t);
    }
  }

  /**
   * Deadlock freedom: in every reachable state with an unfinished call there are steps,
   * none of them a spin or a spurious wake-up, after which an unfinished call has returned.
   */
  lemma NoDeadlock(c: D.Config, x: State, o: OpId)
    requires ValidConfig(c) && Reachable(c, x) && o < |x.d.ops| && !x.d.ops[o].returned
    ensures CanFinish(c, x)
  {
    ReachableInv(c, x);
    LockFacts(c, x);
    var t := x.d.ops[o].thread;
    if x.l.left < |x.l.joined| {
      TakenFinishes(c, x);
    } else {
      CallerFinishes(c, x, t);
    }
  }
}
