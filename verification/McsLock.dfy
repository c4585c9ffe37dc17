/**
 * mcs_lock: the MCS queue lock without flag and futex. Every one of its steps is a short
 * sequence of steps of mcs_futex_lock by the same thread, so its runs are runs of that
 * lock in which nobody ever sleeps, and what was proved there holds here.
 */
module McsLock {
  import opened Prelude
  import L = McsFutexLock
  import LS = McsFutexSteps
  import LT = McsFutexTheorems
  import opened LockContract

  datatype PC = Out | Holding
              | Exchange | SetTaken(found: Tid) | Link(found: Tid) | Spin  // lock
              | IsLocked | CasTry                                          // try_lock, which try_lock_or_wait calls
              | ReadNext | CasNull | Await | HandOver(next: Tid) | ClearNext  // unlock

  datatype State = State(locked: Option<Tid>, nodes: seq<L.McsNode>, pc: seq<PC>)

  ghost predicate Shape(threads: nat, s: State) {
    |s.nodes| == |s.pc| == threads
  }

  ghost predicate Init(threads: nat, s: State) {
    && Shape(threads, s) && s.locked == None
    && forall t :: 0 <= t < threads ==> s.pc[t] == Out && s.nodes[t].next == None
  }

  function Goto(s: State, t: Tid, pc: PC): State
    requires t < |s.pc|
  {
    s.(pc := s.pc[t := pc])
  }

  function SetField(s: State, t: Tid, f: L.Field): State
    requires t < |s.nodes|
  {
    s.(nodes := s.nodes[t := s.nodes[t].(field := f)])
  }

  function SetNext(s: State, t: Tid, next: Option<Tid>): State
    requires t < |s.nodes|
  {
    s.(nodes := s.nodes[t := s.nodes[t].(next := next)])
  }

  ghost predicate LockStep(threads: nat, s: State, s': State, t: Tid)
    requires Shape(threads, s) && t < threads
  {
    match s.pc[t]
    case Out => s' == Goto(s, t, Exchange) || s' == Goto(s, t, IsLocked)
    case Exchange => s' == Goto(s, t, if s.locked.None? then Holding else SetTaken(s.locked.value)).(locked := Some(t))
    case SetTaken(found) => s' == Goto(SetField(s, t, L.Taken), t, Link(found))
    case Link(found) => found < threads && s' == Goto(SetNext(s, found, Some(t)), t, Spin)
    case Spin => s' == if s.nodes[t].field == L.Free then Goto(s, t, Holding) else s
    case IsLocked => s' == Goto(s, t, if s.locked.Some? then Out else CasTry)
    case CasTry => s' == if s.locked.None? then Goto(s, t, Holding).(locked := Some(t)) else Goto(s, t, Out)
    case _ => false
  }

  ghost predicate UnlockStep(threads: nat, s: State, s': State, t: Tid)
    requires Shape(threads, s) && t < threads
  {
    match s.pc[t]
    case Holding => s' == Goto(s, t, ReadNext)
    case ReadNext => s' == Goto(s, t, if s.nodes[t].next.None? then CasNull else Await)
    case CasNull => s' == if s.locked == Some(t) then Goto(s, t, Out).(locked := None) else Goto(s, t, Await)
    case Await => s' == if s.nodes[t].next.None? then s else Goto(s, t, HandOver(s.nodes[t].next.value))
    case HandOver(n) => n < threads && s' == Goto(SetField(s, n, L.Free), t, ClearNext)
    case ClearNext => s' == Goto(SetNext(s, t, None), t, Out)
    case _ => false
  }

  ghost predicate ThreadStep(threads: nat, s: State, s': State, t: Tid)
    requires Shape(threads, s) && t < threads
  {
    LockStep(threads, s, s', t) || UnlockStep(threads, s, s', t)
  }

  ghost predicate Next(threads: nat, s: State, s': State) {
    Shape(threads, s) && exists t: Tid :: t < threads && ThreadStep(threads, s, s', t)
  }

  ghost predicate Run(threads: nat, run: seq<State>) {
    |run| > 0 && Init(threads, run[0]) && forall i :: 0 <= i < |run| - 1 ==> Next(threads, run[i], run[i + 1])
  }

  // ---------- simulation ----------

  function Point(pc: PC): L.PC {
    match pc
    case Out => L.Out
    case Holding => L.Holding
    case Exchange => L.Lock(L.Load)
    case SetTaken(found) => L.Lock(L.SetTaken(found))
    case Link(found) => L.Lock(L.Link(found))
    case Spin => L.Lock(L.Wait(L.Poll(0)))
    case IsLocked => L.Try(L.IsLocked)
    case CasTry => L.Try(L.CasTry)
    case ReadNext => L.Unlock(L.ReadNext(0))
    case CasNull => L.Unlock(L.ReadFlag(0))
    case Await => L.Unlock(L.Await)
    case HandOver(n) => L.Unlock(L.HandOver(n))
    case ClearNext => L.Unlock(L.ClearNext)
  }

  /** The same word without a flag, the same nodes, corresponding program points. */
  ghost predicate Sim(threads: nat, s: State, l: L.State) {
    && Shape(threads, s) && L.Shape(threads, l)
    && l.word == L.Word(s.locked, false) && l.nodes == s.nodes
    && forall t :: 0 <= t < threads ==> l.pc[t] == Point(s.pc[t])
  }

  ghost predicate Matched(threads: nat, s: State, l: L.State) {
    Sim(threads, s, l) && L.Reachable(threads, l)
  }

  lemma Append(threads: nat, l: L.State, l': L.State, t: Tid)
    requires L.Reachable(threads, l) && L.Shape(threads, l) && t < threads && L.ThreadStep(threads, l, l', t)
    ensures L.Reachable(threads, l') && L.Shape(threads, l')
  {
    LS.ReachableInv(threads, l);
    LS.StepKeepsInv(threads, l, l', t);
    assert L.Next(threads, l, l');
    AppendNext(threads, l, l');
  }

  lemma AppendNext(threads: nat, l: L.State, l': L.State)
    requires L.Reachable(threads, l) && L.Shape(threads, l') && L.Next(threads, l, l')
    ensures L.Reachable(threads, l')
  {
    var run :| L.Run(threads, run) && run[|run| - 1] == l;
    var longer := run + [l'];
    forall i | 0 <= i < |longer| - 1 ensures L.NextAt(threads, longer, i) {
      if i < |run| - 1 {
        assert L.NextAt(threads, run, i) && longer[i] == run[i] && longer[i + 1] == run[i + 1];
      } else {
        assert longer[i] == l && longer[i + 1] == l';
      }
    }
    assert L.Run(threads, longer) && longer[|longer| - 1] == l';
  }

  /** exchange is load and a compare-and-swap that succeeds. */
  lemma ExchangeSimulates(threads: nat, s: State, s': State, t: Tid, l: L.State) returns (l': L.State)
    requires Matched(threads, s, l) && t < threads && s.pc[t].Exchange? && LockStep(threads, s, s', t)
    ensures Matched(threads, s', l')
  {
    var m := L.Goto(l, t, L.Lock(L.Cas(l.word)));
    Append(threads, l, m, t);
    var joined := L.Join(m, t, L.Word(Some(t), false));
    l' := if l.word.ptr.None? then L.Acquired(joined, t) else L.Goto(joined, t, L.Lock(L.SetTaken(l.word.ptr.value)));
    assert L.LockStep(threads, m, l', t);
    Append(threads, m, l', t);
  }

  /** Seeing the node free ends the wait. */
  lemma SpinSimulates(threads: nat, s: State, t: Tid, l: L.State) returns (l': L.State)
    requires Matched(threads, s, l) && t < threads && s.pc[t].Spin? && s.nodes[t].field == L.Free
    ensures Matched(threads, Goto(s, t, Holding), l')
  {
    var check := L.Goto(l, t, L.Lock(L.Wait(L.Check)));
    assert L.WaitStep(threads, l, check, t);
    Append(threads, l, check, t);
    var test := L.Goto(check, t, L.Lock(L.Wait(L.Test)));
    assert L.WaitStep(threads, check, test, t);
    Append(threads, check, test, t);
    l' := L.Acquired(test, t);
    assert L.WaitStep(threads, test, l', t);
    Append(threads, test, l', t);
  }

  lemma LinkSimulates(threads: nat, s: State, s': State, t: Tid, l: L.State) returns (l': L.State)
    requires Matched(threads, s, l) && t < threads && (s.pc[t].SetTaken? || s.pc[t].Link?)
    requires LockStep(threads, s, s', t)
    ensures Matched(threads, s', l')
  {
    var found := s.pc[t].found;
    l' := if s.pc[t].SetTaken? then L.Goto(L.SetField(l, t, L.Taken), t, L.Lock(L.Link(found)))
          else L.Goto(L.SetNext(l, found, Some(t)), t, L.Lock(L.Wait(L.Poll(0))));
    assert L.LockStep(threads, l, l', t);
    Append(threads, l, l', t);
  }

  lemma TrySimulates(threads: nat, s: State, s': State, t: Tid, l: L.State) returns (l': L.State)
    requires Matched(threads, s, l) && t < threads && (s.pc[t].IsLocked? || s.pc[t].CasTry?)
    requires LockStep(threads, s, s', t)
    ensures Matched(threads, s', l')
  {
    l' := if s.pc[t].IsLocked? then L.Goto(l, t, if s.locked.Some? then L.Out else L.Try(L.CasTry))
          else if s.locked.None? then L.Acquired(L.Join(l, t, L.Word(Some(t), false)), t)
          else L.Goto(l, t, L.Out);
    assert L.TryStep(threads, l, l', t);
    Append(threads, l, l', t);
  }

  lemma CallSimulates(threads: nat, s: State, s': State, t: Tid, l: L.State) returns (l': L.State)
    requires Matched(threads, s, l) && t < threads && (s.pc[t].Out? || s.pc[t].Holding?)
    requires ThreadStep(threads, s, s', t)
    ensures Matched(threads, s', l')
  {
    assert t < |s'.pc| && s' == Goto(s, t, s'.pc[t]);
    l' := CallStep(threads, l, t, Point(s'.pc[t]));
    SimMoved(threads, s, l, t, s'.pc[t]);
  }

  lemma CallStep(threads: nat, l: L.State, t: Tid, pc: L.PC) returns (l': L.State)
    requires L.Reachable(threads, l) && L.Shape(threads, l) && t < threads
    requires if l.pc[t].Out? then pc == L.Lock(L.Load) || pc == L.Try(L.IsLocked)
        else l.pc[t].Holding? && pc == L.Unlock(L.ReadNext(0))
    ensures L.Reachable(threads, l') && L.Shape(threads, l') && l' == L.Goto(l, t, pc)
  {
    l' := L.Goto(l, t, pc);
    assert L.CallStep(threads, l, l', t);
    Append(threads, l, l', t);
  }

  lemma FlagReadSimulates(threads: nat, s: State, t: Tid, l: L.State) returns (m: L.State)
    requires Matched(threads, s, l) && t < threads && s.pc[t].CasNull?
    ensures L.Reachable(threads, m) && L.Shape(threads, m) && m == L.Goto(l, t, L.Unlock(L.CasFree(false, 0)))
    ensures L.ReleaseStep(threads, l, m, t)
  {
    m := L.Goto(l, t, L.Unlock(L.CasFree(false, 0)));
    assert L.ReleaseStep(threads, l, m, t);
    Append(threads, l, m, t);
  }

  lemma CasStep(threads: nat, m: L.State, t: Tid) returns (l': L.State)
    requires L.Reachable(threads, m) && L.Shape(threads, m) && t < threads && m.pc[t] == L.Unlock(L.CasFree(false, 0))
    requires !m.word.flag
    ensures L.Reachable(threads, l') && L.Shape(threads, l') && L.ReleaseStep(threads, m, l', t)
    ensures m.word.ptr == Some(t) ==> l' == L.Goto(m, t, L.Out).(word := L.FREE, left := m.left + 1)
    ensures m.word.ptr != Some(t) ==> l' == L.Goto(m, t, L.Unlock(L.Await))
  {
    l' := if m.word.ptr == Some(t) then L.Goto(m, t, L.Out).(word := L.FREE, left := m.left + 1)
          else L.Goto(m, t, L.Unlock(L.Await));
    assert L.ReleaseStep(threads, m, l', t);
    Append(threads, m, l', t);
  }

  /**
   * The compare-and-swap of unlock is a read of the flag, which is clear, and the same compare-and-swap of
   * mcs_futex_lock.
   */
  lemma CasSimulates(threads: nat, s: State, s': State, t: Tid, l: L.State) returns (m: L.State, l': L.State)
    requires Matched(threads, s, l) && t < threads && s.pc[t].CasNull? && UnlockStep(threads, s, s', t)
    ensures !l.word.flag && L.ReleaseStep(threads, l, m, t)
    ensures L.Shape(threads, m) && m.word == l.word && m.pc[t] == L.Unlock(L.CasFree(false, 0))
    ensures L.ReleaseStep(threads, m, l', t) && Matched(threads, s', l')
  {
    m := FlagReadSimulates(threads, s, t, l);
    l' := CasStep(threads, m, t);
  }

  lemma ReadNextSimulates(threads: nat, s: State, t: Tid, l: L.State, up: L.UnlockPoint, pc: PC) returns (l': L.State)
    requires Matched(threads, s, l) && t < threads && s.pc[t].ReadNext? && Point(pc) == L.Unlock(up)
    requires up == if s.nodes[t].next.None? then L.ReadFlag(0) else L.Await
    ensures Matched(threads, Goto(s, t, pc), l')
  {
    l' := ReadStep(threads, l, t, up);
    SimMoved(threads, s, l, t, pc);
  }

  lemma SimMoved(threads: nat, s: State, l: L.State, t: Tid, pc: PC)
    requires Sim(threads, s, l) && t < threads
    ensures Sim(threads, Goto(s, t, pc), L.Goto(l, t, Point(pc)))
  {
  }

  lemma ReadStep(threads: nat, l: L.State, t: Tid, up: L.UnlockPoint) returns (l': L.State)
    requires L.Reachable(threads, l) && L.Shape(threads, l) && t < threads && l.pc[t] == L.Unlock(L.ReadNext(0))
    requires up == if l.nodes[t].next.None? then L.ReadFlag(0) else L.Await
    ensures L.Reachable(threads, l') && L.Shape(threads, l') && l' == L.Goto(l, t, L.Unlock(up))
  {
    l' := L.Goto(l, t, L.Unlock(up));
    assert L.ReleaseStep(threads, l, l', t);
    Append(threads, l, l', t);
  }

  lemma AwaitSimulates(threads: nat, s: State, t: Tid, l: L.State) returns (l': L.State)
    requires Matched(threads, s, l) && t < threads && s.pc[t].Await? && s.nodes[t].next.Some?
    ensures Matched(threads, Goto(s, t, HandOver(s.nodes[t].next.value)), l')
  {
    AwaitsAlike(threads, s, t, l);
    l' := AwaitStep(threads, l, t);
    SimMoved(threads, s, l, t, HandOver(s.nodes[t].next.value));
  }

  lemma AwaitsAlike(threads: nat, s: State, t: Tid, l: L.State)
    requires Sim(threads, s, l) && t < threads && s.pc[t].Await?
    ensures l.pc[t] == L.Unlock(L.Await) && l.nodes[t].next == s.nodes[t].next
  {
  }

  lemma AwaitStep(threads: nat, l: L.State, t: Tid) returns (l': L.State)
    requires L.Reachable(threads, l) && L.Shape(threads, l) && t < threads && l.pc[t] == L.Unlock(L.Await)
    requires l.nodes[t].next.Some?
    ensures L.Reachable(threads, l') && L.Shape(threads, l')
    ensures l' == L.Goto(l, t, L.Unlock(L.HandOver(l.nodes[t].next.value)))
  {
    l' := L.Goto(l, t, L.Unlock(L.HandOver(l.nodes[t].next.value)));
    assert L.HandStep(threads, l, l', t);
    Append(threads, l, l', t);
  }

  lemma ClearSimulates(threads: nat, s: State, s': State, t: Tid, l: L.State) returns (l': L.State)
    requires Matched(threads, s, l) && t < threads && UnlockStep(threads, s, s', t) && s.pc[t].ClearNext?
    ensures Matched(threads, s', l')
  {
    l' := L.Goto(L.SetNext(l, t, None), t, L.Out);
    assert L.HandStep(threads, l, l', t);
    Append(threads, l, l', t);
  }

  /** A node in the chain is never contended here. */
  lemma NextIsTaken(threads: nat, s: State, t: Tid, l: L.State, n: Tid)
    requires Matched(threads, s, l) && t < threads && s.pc[t] == HandOver(n)
    ensures n < threads && l.nodes[n].field != L.Contended
  {
    LS.ReachableInv(threads, l);
    assert L.ThreadOk(threads, l, t);
    assert L.PlaceOk(threads, l, l.left + 1);
    assert L.ThreadOk(threads, l, n);
  }

  lemma HandOverSimulates(threads: nat, s: State, s': State, t: Tid, l: L.State) returns (l': L.State)
    requires Matched(threads, s, l) && t < threads && s.pc[t].HandOver? && UnlockStep(threads, s, s', t)
    ensures Matched(threads, s', l')
  {
    var n := s.pc[t].next;
    NextIsTaken(threads, s, t, l, n);
    l' := L.Goto(L.SetField(l, n, L.Free), t, L.Unlock(L.ClearNext)).(left := l.left + 1);
    assert L.HandStep(threads, l, l', t);
    Append(threads, l, l', t);
  }

  /** Every step of mcs_lock is a sequence of steps of mcs_futex_lock. */
  lemma StepSimulates(threads: nat, s: State, s': State, t: Tid, l: L.State) returns (l': L.State)
    requires Matched(threads, s, l) && t < threads && ThreadStep(threads, s, s', t)
    ensures Matched(threads, s', l')
  {
    match s.pc[t]
    case Exchange => l' := ExchangeSimulates(threads, s, s', t, l);
    case SetTaken(_) => l' := LinkSimulates(threads, s, s', t, l);
    case Link(_) => l' := LinkSimulates(threads, s, s', t, l);
    case Spin =>
      if s.nodes[t].field == L.Free {
        l' := SpinSimulates(threads, s, t, l);
      } else {
        l' := l;
      }
    case IsLocked => l' := TrySimulates(threads, s, s', t, l);
    case CasTry => l' := TrySimulates(threads, s, s', t, l);
    case Out => l' := CallSimulates(threads, s, s', t, l);
    case Holding => l' := CallSimulates(threads, s, s', t, l);
    case CasNull =>
      var read;
      read, l' := CasSimulates(threads, s, s', t, l);
    case HandOver(_) => l' := HandOverSimulates(threads, s, s', t, l);
    case ReadNext =>
      if s.nodes[t].next.None? {
        l' := ReadNextSimulates(threads, s, t, l, L.ReadFlag(0), CasNull);
      } else {
        l' := ReadNextSimulates(threads, s, t, l, L.Await, Await);
      }
    case ClearNext => l' := ClearSimulates(threads, s, s', t, l);
    case Await =>
      if s.nodes[t].next.None? {
        l' := l;
      } else {
        l' := AwaitSimulates(threads, s, t, l);
      }
  }

  /** Refinement: every reachable state of mcs_lock is one of mcs_futex_lock. */
  lemma {:induction false} RunSimulates(threads: nat, run: seq<State>, i: nat) returns (l: L.State)
    requires Run(threads, run) && i < |run|
    ensures Matched(threads, run[i], l)
  {
    if i == 0 {
      var s := run[0];
      l := L.State(L.FREE, s.nodes, seq(threads, _ => L.Out), [], 0, [], seq(threads, _ => 0));
      assert L.Run(threads, [l]) && [l][0] == l;
    } else {
      var m := RunSimulates(threads, run, i - 1);
      assert Next(threads, run[i - 1], run[i - 1 + 1]);
      var t: Tid :| t < threads && ThreadStep(threads, run[i - 1], run[i], t);
      l := StepSimulates(threads, run[i - 1], run[i], t, m);
    }
  }

  /**
   * The compare-and-swap of unlock fails only if another thread has joined behind t and is on its way to link
   * itself to t's node. So the value it finds is not t's node, and the branch where unlock calls itself is dead.
   */
  lemma FailedCasHasSuccessor(threads: nat, run: seq<State>, i: nat, t: Tid)
    requires Run(threads, run) && i < |run| && t < |run[i].pc| && run[i].pc[t].CasNull? && run[i].locked != Some(t)
    ensures run[i].locked.Some? && run[i].locked.value < |run[i].pc|
    ensures Queuing(run[i].pc[run[i].locked.value])
    ensures exists u: Tid :: IsBehind(run[i], t, u)
  {
    var l := RunSimulates(threads, run, i);
    LS.ReachableInv(threads, l);
    TailIsQueuing(threads, run[i], l, t);
    SuccessorQueues(threads, run[i], l, t);
  }

  /** In the chain behind its head, not yet owning the lock. */
  predicate Queuing(pc: PC) {
    pc.SetTaken? || pc.Link? || pc.Spin?
  }

  /** u queues right behind t and has linked itself to t's node or is about to. */
  ghost predicate IsBehind(s: State, t: Tid, u: Tid) {
    && t < |s.nodes| && u < |s.pc| && u != t && Queuing(s.pc[u])
    && (s.nodes[t].next == Some(u) || s.pc[u] == SetTaken(t) || s.pc[u] == Link(t))
  }

  /** Another thread's CAS comes after t's in the chain. */
  lemma JoinedBehind(threads: nat, s: State, l: L.State, t: Tid)
    requires Sim(threads, s, l) && L.Inv(threads, l) && t < threads && s.pc[t].CasNull? && s.locked != Some(t)
    ensures l.slot[t] == l.left && l.left + 1 < |l.joined| && l.joined[l.left] == t
  {
    assert L.ThreadOk(threads, l, t);
  }

  lemma PlaceIsQueuing(threads: nat, s: State, l: L.State, k: nat)
    requires Sim(threads, s, l) && L.Inv(threads, l) && l.left < k < |l.joined|
    ensures l.joined[k] < threads && Queuing(s.pc[l.joined[k]]) && l.slot[l.joined[k]] == k
  {
    assert L.PlaceOk(threads, l, k);
    assert L.ThreadOk(threads, l, l.joined[k]);
  }

  lemma TailIsQueuing(threads: nat, s: State, l: L.State, t: Tid)
    requires Sim(threads, s, l) && L.Inv(threads, l) && t < threads && s.pc[t].CasNull? && s.locked != Some(t)
    ensures s.locked.Some? && s.locked.value < threads && Queuing(s.pc[s.locked.value])
  {
    JoinedBehind(threads, s, l, t);
    PlaceIsQueuing(threads, s, l, |l.joined| - 1);
  }

  lemma SuccessorQueues(threads: nat, s: State, l: L.State, t: Tid)
    requires Sim(threads, s, l) && L.Inv(threads, l) && t < threads && s.pc[t].CasNull? && s.locked != Some(t)
    ensures exists u: Tid :: IsBehind(s, t, u)
  {
    JoinedBehind(threads, s, l, t);
    PlaceIsQueuing(threads, s, l, l.left + 1);
    var u := l.joined[l.left + 1];
    assert L.ThreadOk(threads, l, t) && L.ThreadOk(threads, l, u);
    assert IsBehind(s, t, u);
  }

  /** At most one thread holds the lock, and while one does, is_locked answers true. */
  lemma MutualExclusion(threads: nat, run: seq<State>, i: nat, t: Tid, u: Tid)
    requires Run(threads, run) && i < |run| && t < |run[i].pc| && u < |run[i].pc| && run[i].pc[t].Holding?
    ensures run[i].pc[u].Holding? ==> t == u
    ensures run[i].locked.Some?
  {
    var l := RunSimulates(threads, run, i);
    LT.HeldIsLocked(threads, l, t);
    if run[i].pc[u].Holding? {
      LT.MutualExclusion(threads, l, t, u);
    }
  }

  function Held(s: State): seq<bool> {
    seq(|s.pc|, i requires 0 <= i < |s.pc| => s.pc[i].Holding?)
  }

  /** The lock is as the delegation protocol assumes. */
  lemma MeetsContract(threads: nat, run: seq<State>, i: nat, t: Tid, h: Option<Tid>) returns (h': Option<Tid>)
    requires Run(threads, run) && i + 1 < |run| && Shape(threads, run[i]) && t < threads
    requires ThreadStep(threads, run[i], run[i + 1], t)
    requires HeldBy(Held(run[i]), h)
    ensures HeldBy(Held(run[i + 1]), h') && Permitted(h, h', t)
    ensures run[i].locked.None? ==> h == None
  {
    var s, s' := run[i], run[i + 1];
    OnlyMoverChanges(threads, s, s', t);
    if h.Some? {
      MutualExclusion(threads, run, i, h.value, t);
      if s'.pc[t].Holding? {
        MutualExclusion(threads, run, i + 1, t, h.value);
      }
    }
    h' := OneChange(Held(s), h, t, s'.pc[t].Holding?);
    assert Held(s') == Held(s)[t := s'.pc[t].Holding?];
  }

  lemma OnlyMoverChanges(threads: nat, s: State, s': State, t: Tid)
    requires Shape(threads, s) && t < threads && ThreadStep(threads, s, s', t)
    ensures |s'.pc| == |s.pc| && s'.pc == s.pc[t := s'.pc[t]]
  {
  }

  // ---------- what the calls answer ----------

  function ToTake(pc: PC): nat {
    match pc
    case Exchange => 1
    case IsLocked => 2
    case CasTry => 1
    case _ => 0
  }

  /** While the lock is free, every step of a locking call takes it or brings the call closer to taking it. */
  lemma TakesFreeLock(threads: nat, s: State, s': State, t: Tid)
    requires Shape(threads, s) && t < threads && ThreadStep(threads, s, s', t) && s.locked == None
    requires ToTake(s.pc[t]) > 0
    ensures t < |s'.pc|
    ensures s'.pc[t].Holding? || (s'.locked == None && 0 < ToTake(s'.pc[t]) < ToTake(s.pc[t]))
  {
  }

  /**
   * try_lock answers false only if it finds the lock taken; a waiter whose node is free has the lock at its
   * next poll.
   */
  lemma CallsAnswer(threads: nat, s: State, s': State, t: Tid)
    requires Shape(threads, s) && t < threads && ThreadStep(threads, s, s', t)
    ensures t < |s'.pc|
    ensures (s.pc[t].IsLocked? || s.pc[t].CasTry?) && s'.pc[t].Out? ==> s.locked.Some?
    ensures s.pc[t].Spin? && s.nodes[t].field == L.Free ==> s'.pc[t].Holding?
  {
  }

  function ToEnd(pc: PC): nat {
    match pc
    case ReadNext => 5
    case CasNull => 4
    case Await => 3
    case HandOver(_) => 2
    case ClearNext => 1
    case _ => 0
  }

  /** unlock ends by its own steps, waiting at most for the link of a thread that has joined behind. */
  lemma UnlockEnds(threads: nat, s: State, s': State, t: Tid)
    requires Shape(threads, s) && t < threads && ThreadStep(threads, s, s', t) && ToEnd(s.pc[t]) > 0
    requires s.pc[t].Await? ==> s.nodes[t].next.Some?
    ensures t < |s'.pc| && ToEnd(s'.pc[t]) < ToEnd(s.pc[t])
    ensures ToEnd(s'.pc[t]) == 0 ==> s'.pc[t].Out?
  {
  }
}
