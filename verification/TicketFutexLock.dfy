/**
 * ticket_futex_lock: a ticket lock whose waiters sleep on the serving word. One step per
 * atomic access or futex call, any number of threads.
 *
 * The program steps ticket and serving by two and uses bit 0 of serving as a flag; here
 * both count by one, and serving is a pair of number and flag. The fields do not wrap around.
 */
module TicketFutexLock {
  import opened Prelude
  import opened LockContract

  datatype Word = Word(num: nat, flag: bool)

  datatype PC =
    | Out
    | Holding(num: nat)
    | Lock(lp: LockPoint)
    | Unlock(up: UnlockPoint)
    | Try(tp: TryPoint)
    | TryOrWait(wp: WaitPoint)

  datatype LockPoint =
    | Take
    | Load(num: nat)
    | Flag(num: nat, current: Word)
    | Futex(num: nat, current: Word)
    | Asleep(num: nat, current: Word)

  /** num is history: the ticket being given back. */
  datatype UnlockPoint = LoadServing(num: nat) | Release(num: nat, mine: Word) | NotifyAll
  datatype TryPoint = LoadTicket | Compare(ticket: nat) | CasTicket(ticket: nat)

  /** try_lock_or_wait; where the program needs the ticket it read no more, it is history. */
  datatype WaitPoint =
    | First
    | Second(ticket: nat)
    | CasTake(ticket: nat, serving: Word)
    | CasFlag(ticket: nat, serving: Word)
    | Wait(ticket: nat, serving: Word)
    | Sleep(ticket: nat, serving: Word)

  /** History: owner lists the threads by ticket, got by the order in which their calls succeeded. */
  datatype State = State(ticket: nat, serving: Word, pc: seq<PC>, owner: seq<Tid>, got: seq<Tid>)

  ghost predicate Init(threads: nat, s: State) {
    && |s.pc| == threads && s.ticket == 0 && s.serving == Word(0, false) && s.owner == s.got == []
    && forall t :: 0 <= t < threads ==> s.pc[t] == Out
  }

  function Goto(s: State, t: Tid, pc: PC): State
    requires t < |s.pc|
  {
    s.(pc := s.pc[t := pc])
  }

  function Acquired(s: State, t: Tid, num: nat): State
    requires t < |s.pc|
  {
    Goto(s, t, Holding(num)).(got := s.got + [t])
  }

  /** Taking the next ticket. */
  function Join(s: State, t: Tid): State {
    s.(ticket := s.ticket + 1, owner := s.owner + [t])
  }

  ghost predicate CallStep(s: State, s': State, t: Tid)
    requires t < |s.pc|
  {
    || (s.pc[t].Out? && s' == Goto(s, t, Lock(Take)))
    || (s.pc[t].Out? && s' == Goto(s, t, Try(LoadTicket)))
    || (s.pc[t].Out? && s' == Goto(s, t, TryOrWait(First)))
    || (s.pc[t].Holding? && s' == Goto(s, t, Unlock(LoadServing(s.pc[t].num))))
  }

  /** The test of the waiting loop in lock on the value read last. */
  function AfterRead(s: State, t: Tid, num: nat, current: Word): State
    requires t < |s.pc|
  {
    if current.num == num then Acquired(s, t, num)
    else Goto(s, t, Lock(if current.flag then Futex(num, current) else Flag(num, current)))
  }

  ghost predicate LockStep(s: State, s': State, t: Tid)
    requires t < |s.pc|
  {
    match s.pc[t]
    case Lock(Take) => s' == Goto(Join(s, t), t, Lock(Load(s.ticket)))
    case Lock(Load(num)) => s' == AfterRead(s, t, num, s.serving)
    case Lock(Flag(num, current)) =>
      if s.serving == current then s' == Goto(s, t, Lock(Futex(num, current.(flag := true))))
          .(serving := current.(flag := true))
      else s' == AfterRead(s, t, num, s.serving)
    case Lock(Futex(num, current)) => s' == Goto(s, t, Lock(if s.serving == current then Asleep(num, current)
        else Load(num)))
    case Lock(Asleep(num, _)) => s' == Goto(s, t, Lock(Load(num)))  // a spurious return of the system call
    case _ => false
  }

  function Woken(pc: PC): PC {
    if pc.Lock? && pc.lp.Asleep? then Lock(Load(pc.lp.num))
    else if pc.TryOrWait? && pc.wp.Sleep? then Out
    else pc
  }

  function WakeAll(pc: seq<PC>): seq<PC> {
    seq(|pc|, i requires 0 <= i < |pc| => Woken(pc[i]))
  }

  ghost predicate UnlockStep(s: State, s': State, t: Tid)
    requires t < |s.pc|
  {
    match s.pc[t]
    case Unlock(LoadServing(num)) => s' == Goto(s, t, Unlock(Release(num, s.serving)))
    case Unlock(Release(num, mine)) =>
      s' == Goto(s, t, if s.serving.flag then Unlock(NotifyAll) else Out).(serving := Word(mine.num + 1, false))
    case Unlock(NotifyAll) => s' == Goto(s.(pc := WakeAll(s.pc)), t, Out)
    case _ => false
  }

  ghost predicate TryStep(s: State, s': State, t: Tid)
    requires t < |s.pc|
  {
    match s.pc[t]
    case Try(LoadTicket) => s' == Goto(s, t, Try(Compare(s.ticket)))
    case Try(Compare(ticket)) => s' == Goto(s, t, if s.serving == Word(ticket, false) then Try(CasTicket(ticket))
        else Out)
    case Try(CasTicket(ticket)) => s' == if s.ticket == ticket then Acquired(Join(s, t), t, ticket) else Goto(s, t, Out)
    case _ => false
  }

  ghost predicate WaitStep(s: State, s': State, t: Tid)
    requires t < |s.pc|
  {
    match s.pc[t]
    case TryOrWait(First) => s' == Goto(s, t, TryOrWait(Second(s.ticket)))
    case TryOrWait(Second(ticket)) =>
      s' == Goto(s, t, if ticket == s.serving.num then TryOrWait(CasTake(ticket, s.serving))
          else AfterMiss(ticket, s.serving))
    case TryOrWait(CasTake(ticket, seen)) =>
      s' == if s.ticket == ticket then Acquired(Join(s, t), t, ticket) else Goto(s, t, AfterMiss(ticket, seen))
    case TryOrWait(CasFlag(ticket, seen)) =>
      s' == if s.serving == seen then Goto(s, t, TryOrWait(Wait(ticket, seen.(flag := true))))
          .(serving := seen.(flag := true))
            else Goto(s, t, Out)
    case TryOrWait(Wait(ticket, seen)) => s' == Goto(s, t, if s.serving == seen then TryOrWait(Sleep(ticket, seen))
        else Out)
    case TryOrWait(Sleep(_, _)) => s' == Goto(s, t, Out)  // a spurious return of the system call
    case _ => false
  }

  /** try_lock_or_wait did not get the lock and goes to sleep, flagging the word first if it is not. */
  function AfterMiss(ticket: nat, seen: Word): PC {
    TryOrWait(if seen.flag then Wait(ticket, seen) else CasFlag(ticket, seen))
  }

  ghost predicate ThreadStep(s: State, s': State, t: Tid)
    requires t < |s.pc|
  {
    CallStep(s, s', t) || LockStep(s, s', t) || UnlockStep(s, s', t) || TryStep(s, s', t) || WaitStep(s, s', t)
  }

  ghost predicate Next(s: State, s': State) {
    exists t: Tid :: t < |s.pc| && ThreadStep(s, s', t)
  }

  /** The i-th step of a sequence of states. */
  ghost predicate NextAt(run: seq<State>, i: nat)
    requires i + 1 < |run|
  {
    Next(run[i], run[i + 1])
  }

  ghost predicate Run(threads: nat, run: seq<State>) {
    |run| > 0 && Init(threads, run[0]) && forall i :: 0 <= i < |run| - 1 ==> NextAt(run, i)
  }

  ghost predicate Reachable(threads: nat, s: State) {
    exists run :: Run(threads, run) && run[|run| - 1] == s
  }

  // ---------- the invariant ----------

  /** The ticket a thread holds, from taking it to moving serving past it. */
  function NumOf(pc: PC): Option<nat> {
    match pc
    case Holding(num) => Some(num)
    case Lock(Take) => None
    case Lock(lp) => Some(lp.num)
    case Unlock(LoadServing(num)) => Some(num)
    case Unlock(Release(num, _)) => Some(num)
    case _ => None
  }

  predicate Owner(pc: PC) {
    pc.Holding? || (pc.Unlock? && !pc.up.NotifyAll?)
  }

  /** The word a sleeping thread waits to see changed. */
  function SleepsOn(pc: PC): Option<Word> {
    if pc.Lock? && pc.lp.Asleep? then Some(pc.lp.current)
    else if pc.TryOrWait? && pc.wp.Sleep? then Some(pc.wp.serving)
    else None
  }

  /** A ticket read first and not behind the number read second shows that the lock was taken at the second read. */
  ghost predicate SawTaken(ticket: nat, seen: Word, now: nat) {
    ticket >= seen.num ==> seen.num < now
  }

  /** What a program point knows about the two words. */
  ghost predicate At(pc: PC, serving: Word, now: nat) {
    match pc
    case Holding(num) => num == serving.num
    case Unlock(LoadServing(num)) => num == serving.num
    case Unlock(Release(num, mine)) => num == mine.num == serving.num
    case Lock(Flag(num, current)) => current.num != num && !current.flag
    case Lock(Futex(num, current)) => current.num != num && current.flag
    case Lock(Asleep(num, current)) => current.num != num && current.flag
    case Try(CasTicket(ticket)) => ticket <= serving.num
    case TryOrWait(Second(ticket)) => ticket <= now
    case TryOrWait(CasTake(ticket, seen)) => ticket == seen.num <= serving.num
    case TryOrWait(CasFlag(ticket, seen)) => !seen.flag && SawTaken(ticket, seen, now)
    case TryOrWait(Wait(ticket, seen)) => seen.flag && SawTaken(ticket, seen, now)
    case TryOrWait(Sleep(ticket, seen)) => seen.flag && SawTaken(ticket, seen, now)
    case _ => true
  }

  ghost predicate ThreadOk(s: State, t: Tid)
    requires t < |s.pc|
  {
    && At(s.pc[t], s.serving, s.ticket)
    && (NumOf(s.pc[t]).Some? ==>
        s.serving.num <= NumOf(s.pc[t]).value < |s.owner| && s.owner[NumOf(s.pc[t]).value] == t)
  }

  ghost predicate PlaceOk(s: State, i: nat)
    requires i < |s.owner|
  {
    s.owner[i] < |s.pc| && NumOf(s.pc[s.owner[i]]) == Some(i)
  }

  /** Outstanding tickets and the threads that hold them correspond one to one. */
  ghost predicate Tickets(s: State) {
    && s.serving.num <= s.ticket == |s.owner|
    && (forall i :: s.serving.num <= i < |s.owner| ==> PlaceOk(s, i))
    && (forall t :: 0 <= t < |s.pc| ==> ThreadOk(s, t))
  }

  ghost predicate WillNotify(pc: seq<PC>) {
    Somewhere(pc, Unlock(NotifyAll))
  }

  ghost predicate Watched(s: State) {
    forall t :: 0 <= t < |s.pc| && SleepsOn(s.pc[t]).Some? ==> SleepsOn(s.pc[t]) == Some(s.serving) || WillNotify(s.pc)
  }

  ghost predicate HeadOwns(s: State) {
    s.serving.num < |s.owner| && s.owner[s.serving.num] < |s.pc| && Owner(s.pc[s.owner[s.serving.num]])
  }

  ghost predicate Fifo(s: State) {
    && |s.got| <= |s.owner| && s.got == s.owner[..|s.got|]
    && |s.got| == s.serving.num + (if HeadOwns(s) then 1 else 0)
  }

  ghost predicate Inv(s: State) {
    Tickets(s) && Watched(s) && Fifo(s)
  }

  // ---------- every step keeps it ----------

  /** t neither takes nor gives back a ticket, and serving keeps its number. */
  lemma TicketsLocal(s: State, s': State, t: Tid)
    requires t < |s.pc| == |s'.pc| && Tickets(s) && s'.pc == s.pc[t := s'.pc[t]]
    requires s'.ticket == s.ticket && s'.owner == s.owner && s'.serving.num == s.serving.num
    requires NumOf(s'.pc[t]) == NumOf(s.pc[t]) && At(s'.pc[t], s'.serving, s'.ticket)
    ensures Tickets(s')
  {
    assert ThreadOk(s, t);
    forall u | 0 <= u < |s'.pc| ensures ThreadOk(s', u) {
      assert ThreadOk(s, u);
    }
    forall i | s'.serving.num <= i < |s'.owner| ensures PlaceOk(s', i) {
      assert PlaceOk(s, i);
    }
  }

  lemma TicketsJoined(s: State, s': State, t: Tid)
    requires t < |s.pc| == |s'.pc| && Tickets(s) && s'.pc == s.pc[t := s'.pc[t]]
    requires s'.ticket == s.ticket + 1 && s'.owner == s.owner + [t] && s'.serving == s.serving
    requires NumOf(s.pc[t]).None? && NumOf(s'.pc[t]) == Some(s.ticket) && At(s'.pc[t], s'.serving, s'.ticket)
    ensures Tickets(s')
  {
    forall u | 0 <= u < |s'.pc| ensures ThreadOk(s', u) {
      assert ThreadOk(s, u);
    }
    forall i | s'.serving.num <= i < |s'.owner| ensures PlaceOk(s', i) {
      if i < |s.owner| {
        assert PlaceOk(s, i);
      }
    }
  }

  lemma TicketsLeft(s: State, s': State, t: Tid)
    requires t < |s.pc| == |s'.pc| && Tickets(s) && s'.pc == s.pc[t := s'.pc[t]]
    requires s'.ticket == s.ticket && s'.owner == s.owner && s'.serving.num == s.serving.num + 1
    requires Owner(s.pc[t]) && NumOf(s.pc[t]) == Some(s.serving.num)
    requires s'.pc[t] == Out || s'.pc[t] == Unlock(NotifyAll)
    ensures Tickets(s')
  {
    assert ThreadOk(s, t);
    forall u | 0 <= u < |s'.pc| ensures ThreadOk(s', u) {
      assert ThreadOk(s, u);
    }
    forall i | s'.serving.num <= i < |s'.owner| ensures PlaceOk(s', i) {
      assert PlaceOk(s, i);
    }
  }

  lemma TicketsWoken(s: State, s': State, t: Tid)
    requires t < |s.pc| && Tickets(s) && s.pc[t] == Unlock(NotifyAll) && s' == Goto(s.(pc := WakeAll(s.pc)), t, Out)
    ensures Tickets(s')
  {
    forall u | 0 <= u < |s'.pc| ensures ThreadOk(s', u) {
      assert ThreadOk(s, u);
    }
    forall i | s'.serving.num <= i < |s'.owner| ensures PlaceOk(s', i) {
      assert PlaceOk(s, i);
    }
  }

  lemma StepKeepsTickets(s: State, s': State, t: Tid)
    requires t < |s.pc| && Tickets(s) && ThreadStep(s, s', t)
    ensures Tickets(s')
  {
    assert ThreadOk(s, t);
    if s.pc[t] == Unlock(NotifyAll) {
      TicketsWoken(s, s', t);
    } else if s'.ticket > s.ticket {
      TicketsJoined(s, s', t);
    } else if s'.serving.num > s.serving.num {
      TicketsLeft(s, s', t);
    } else {
      TicketsLocal(s, s', t);
    }
  }

  lemma WatchedKept(s: State, s': State, t: Tid)
    requires t < |s.pc| == |s'.pc| && s'.pc == s.pc[t := s'.pc[t]] && Watched(s) && s.pc[t] != Unlock(NotifyAll)
    requires forall u :: 0 <= u < |s.pc| ==> ThreadOk(s, u)
    requires s'.serving == s.serving || !s.serving.flag || s'.pc[t] == Unlock(NotifyAll)
    requires SleepsOn(s'.pc[t]).Some? ==> SleepsOn(s'.pc[t]) == Some(s'.serving)
    ensures Watched(s')
  {
    if WillNotify(s.pc) {
      StaysSomewhere(s.pc, Unlock(NotifyAll), t, s'.pc[t]);
    }
    if s'.pc[t] == Unlock(NotifyAll) {
      assert WillNotify(s'.pc);
    }
    forall u | 0 <= u < |s'.pc| && SleepsOn(s'.pc[u]).Some?
        ensures SleepsOn(s'.pc[u]) == Some(s'.serving) || WillNotify(s'.pc) {
      assert ThreadOk(s, u);
    }
  }

  lemma StepKeepsWatched(s: State, s': State, t: Tid)
    requires t < |s.pc| && Tickets(s) && Watched(s) && ThreadStep(s, s', t)
    ensures Watched(s')
  {
    if s.pc[t] == Unlock(NotifyAll) {
      assert forall u :: 0 <= u < |s.pc| ==> SleepsOn(s'.pc[u]).None?;
    } else {
      WatchedKept(s, s', t);
    }
  }

  lemma FifoLocal(s: State, s': State, t: Tid)
    requires t < |s.pc| == |s'.pc| && Tickets(s) && Fifo(s)
    requires forall u :: 0 <= u < |s.pc| ==> Owner(s'.pc[u]) == Owner(s.pc[u])
    requires s'.owner == s.owner && s'.got == s.got && s'.serving.num == s.serving.num
    ensures Fifo(s')
  {
  }

  lemma FifoJoined(s: State, s': State, t: Tid)
    requires t < |s.pc| == |s'.pc| && Tickets(s) && Fifo(s) && s'.pc == s.pc[t := s'.pc[t]]
    requires s'.owner == s.owner + [t] && s'.serving == s.serving && NumOf(s.pc[t]).None?
    requires if Owner(s'.pc[t]) then s'.got == s.got + [t] && s.serving.num == |s.owner| else s'.got == s.got
    ensures Fifo(s')
  {
    if s.serving.num < |s.owner| {
      assert PlaceOk(s, s.serving.num);
    }
  }

  lemma FifoGot(s: State, s': State, t: Tid)
    requires t < |s.pc| == |s'.pc| && Tickets(s) && Fifo(s) && s'.pc == s.pc[t := s'.pc[t]]
    requires s'.owner == s.owner && s'.serving == s.serving && s'.got == s.got + [t]
    requires NumOf(s.pc[t]) == Some(s.serving.num) && !Owner(s.pc[t]) && Owner(s'.pc[t])
    ensures Fifo(s')
  {
    assert ThreadOk(s, t);
  }

  lemma NotServed(s: State, t: Tid)
    requires t < |s.pc| && Tickets(s) && NumOf(s.pc[t]) != Some(s.serving.num)
    ensures !Owner(s.pc[t])
  {
    assert ThreadOk(s, t);
  }

  lemma FifoLeft(s: State, s': State, t: Tid)
    requires t < |s.pc| == |s'.pc| && Tickets(s) && Tickets(s') && Fifo(s) && s'.pc == s.pc[t := s'.pc[t]]
    requires s'.owner == s.owner && s'.serving.num == s.serving.num + 1 && s'.got == s.got
    requires Owner(s.pc[t]) && NumOf(s.pc[t]) == Some(s.serving.num) && !Owner(s'.pc[t])
    ensures Fifo(s')
  {
    assert ThreadOk(s, t);
    if s'.serving.num < |s'.owner| {
      assert PlaceOk(s', s'.serving.num);
      if s'.owner[s'.serving.num] != t {
        NotServed(s, s'.owner[s'.serving.num]);
      }
    }
  }

  lemma StepKeepsFifo(s: State, s': State, t: Tid)
    requires t < |s.pc| && Tickets(s) && Tickets(s') && Fifo(s) && ThreadStep(s, s', t)
    ensures Fifo(s')
  {
    assert ThreadOk(s, t);
    if s'.ticket > s.ticket {
      FifoJoined(s, s', t);
    } else if s'.serving.num > s.serving.num {
      FifoLeft(s, s', t);
    } else if |s'.got| > |s.got| {
      FifoGot(s, s', t);
    } else {
      FifoLocal(s, s', t);
    }
  }

  lemma StepKeepsInv(s: State, s': State, t: Tid)
    requires t < |s.pc| && Inv(s) && ThreadStep(s, s', t)
    ensures Inv(s') && |s'.pc| == |s.pc|
  {
    StepKeepsTickets(s, s', t);
    StepKeepsWatched(s, s', t);
    StepKeepsFifo(s, s', t);
  }

  lemma {:induction false} RunKeepsInv(threads: nat, run: seq<State>, i: nat)
    requires Run(threads, run) && i < |run|
    ensures Inv(run[i]) && |run[i].pc| == threads
  {
    if i > 0 {
      RunKeepsInv(threads, run, i - 1);
      assert NextAt(run, i - 1);
      var t: Tid :| t < |run[i - 1].pc| && ThreadStep(run[i - 1], run[i], t);
      StepKeepsInv(run[i - 1], run[i], t);
    }
  }

  lemma ReachableInv(threads: nat, s: State)
    requires Reachable(threads, s)
    ensures Inv(s) && |s.pc| == threads
  {
    var run :| Run(threads, run) && run[|run| - 1] == s;
    RunKeepsInv(threads, run, |run| - 1);
  }

  // ---------- what the lock promises ----------

  /** One holder, which is being served; outstanding tickets belong to distinct threads. */
  lemma TicketsDistinct(threads: nat, s: State, t: Tid, u: Tid)
    requires Reachable(threads, s) && t < |s.pc| && u < |s.pc|
    ensures NumOf(s.pc[t]).Some? && NumOf(s.pc[t]) == NumOf(s.pc[u]) ==> t == u
    ensures NumOf(s.pc[t]).Some? ==> s.serving.num <= NumOf(s.pc[t]).value < s.ticket
    ensures Owner(s.pc[t]) ==> NumOf(s.pc[t]) == Some(s.serving.num)
    ensures Owner(s.pc[t]) && Owner(s.pc[u]) ==> t == u
  {
    ReachableInv(threads, s);
    assert ThreadOk(s, t) && ThreadOk(s, u);
  }

  function Holders(pc: seq<PC>, low: nat, high: nat): set<Tid> {
    set t: Tid | t < |pc| && NumOf(pc[t]).Some? && low <= NumOf(pc[t]).value < high
  }

  lemma {:induction false} CountHolders(s: State, high: nat)
    requires Tickets(s) && s.serving.num <= high <= s.ticket
    ensures |Holders(s.pc, s.serving.num, high)| == high - s.serving.num
    decreases high
  {
    if high > s.serving.num {
      CountHolders(s, high - 1);
      assert PlaceOk(s, high - 1);
      var u := s.owner[high - 1];
      forall t | t in Holders(s.pc, s.serving.num, high) ensures t == u || t in Holders(s.pc, s.serving.num, high - 1) {
        assert ThreadOk(s, t);
      }
      SizeWith(Holders(s.pc, s.serving.num, high - 1), Holders(s.pc, s.serving.num, high), u);
    } else {
      assert Holders(s.pc, s.serving.num, high) == {};
    }
  }

  /** The difference of the two words is the number of holders and waiters. */
  lemma DifferenceCounts(threads: nat, s: State)
    requires Reachable(threads, s)
    ensures s.serving.num <= s.ticket
    ensures |(set t: Tid | t < |s.pc| && NumOf(s.pc[t]).Some?)| == s.ticket - s.serving.num
  {
    ReachableInv(threads, s);
    CountHolders(s, s.ticket);
    forall t: Tid | t < |s.pc| && NumOf(s.pc[t]).Some? ensures t in Holders(s.pc, s.serving.num, s.ticket) {
      assert ThreadOk(s, t);
    }
    assert (set t: Tid | t < |s.pc| && NumOf(s.pc[t]).Some?) == Holders(s.pc, s.serving.num, s.ticket);
  }

  /** Threads are served in the order of their tickets. */
  lemma ServedInOrder(threads: nat, s: State)
    requires Reachable(threads, s)
    ensures s.got <= s.owner
    ensures s.serving.num <= |s.got| <= s.serving.num + 1
  {
    ReachableInv(threads, s);
  }

  /** No lost wake-up: a sleeper sleeps on the current, flagged word, or a notification is on its way. */
  lemma SleeperIsWatched(threads: nat, s: State, t: Tid)
    requires Reachable(threads, s) && t < |s.pc| && SleepsOn(s.pc[t]).Some?
    ensures (SleepsOn(s.pc[t]) == Some(s.serving) && s.serving.flag) || WillNotify(s.pc)
    ensures s.pc[t].Lock? && s.pc[t].lp.num == s.serving.num ==> WillNotify(s.pc)
  {
    ReachableInv(threads, s);
    assert ThreadOk(s, t);
  }

  /** Whenever a ticket is outstanding, some thread is awake and able to move the queue on. */
  lemma WhoMoves(threads: nat, s: State) returns (u: Tid)
    requires Reachable(threads, s) && s.serving.num < s.ticket
    ensures u < |s.pc| && SleepsOn(s.pc[u]).None?
    ensures s.pc[u] == Unlock(NotifyAll) || NumOf(s.pc[u]) == Some(s.serving.num)
  {
    ReachableInv(threads, s);
    assert PlaceOk(s, s.serving.num);
    u := s.owner[s.serving.num];
    assert ThreadOk(s, u);
    if SleepsOn(s.pc[u]).Some? {
      u :| u < |s.pc| && s.pc[u] == Unlock(NotifyAll);
    }
  }

  /** A thread asleep inside lock always has somebody to wake it. */
  lemma LockSleeperHasWaker(threads: nat, s: State, t: Tid) returns (u: Tid)
    requires Reachable(threads, s) && t < |s.pc| && s.pc[t].Lock? && s.pc[t].lp.Asleep?
    ensures u < |s.pc| && SleepsOn(s.pc[u]).None?
    ensures s.pc[u] == Unlock(NotifyAll) || NumOf(s.pc[u]) == Some(s.serving.num)
  {
    ReachableInv(threads, s);
    assert ThreadOk(s, t);
    u := WhoMoves(threads, s);
  }

  /** Somebody holds a ticket, and so will unlock, or is about to notify. */
  ghost predicate SomebodyWakes(s: State) {
    exists u: Tid :: u < |s.pc| && (s.pc[u] == Unlock(NotifyAll) || NumOf(s.pc[u]).Some?)
  }

  /**
   * Of a thread asleep inside try_lock_or_wait: if the ticket it read first was not behind the number
   * it read second, the lock is taken under the flag, so that its owner will notify, or a notification is pending.
   */
  lemma TrySleeperHasWaker(threads: nat, s: State, t: Tid)
    requires Reachable(threads, s) && t < |s.pc| && s.pc[t].TryOrWait? && s.pc[t].wp.Sleep?
    requires s.pc[t].wp.ticket >= s.pc[t].wp.serving.num
    ensures (s.serving.flag && s.serving.num < s.ticket) || WillNotify(s.pc)
    ensures SomebodyWakes(s)
  {
    ReachableInv(threads, s);
    assert ThreadOk(s, t);
    if s.serving.num < s.ticket {
      assert PlaceOk(s, s.serving.num);
    }
  }

  /** Thread t sleeps inside try_lock_or_wait after reading ticket k and serving number m, and nobody will wake it. */
  ghost predicate Stranded(s: State, t: Tid, k: nat, m: nat) {
    && t < |s.pc| && s.pc[t].TryOrWait? && s.pc[t].wp.Sleep?
    && s.pc[t].wp.ticket == k && s.pc[t].wp.serving.num == m
    && !SomebodyWakes(s)
  }

  /** A thread can be left asleep for ever exactly if the ticket it read is behind the number it read. */
  lemma StrandedExactly(k: nat, m: nat)
    ensures (exists threads: nat, s, t :: Reachable(threads, s) && Stranded(s, t, k, m)) <==> k < m
  {
    if k < m {
      var s := StaleTicketSleeps(k, m);
      assert Reachable(2, s) && Stranded(s, 0, k, m);
    }
    if exists threads: nat, s, t :: Reachable(threads, s) && Stranded(s, t, k, m) {
      var threads: nat, s, t :| Reachable(threads, s) && Stranded(s, t, k, m);
      if k >= m {
        TrySleeperHasWaker(threads, s, t);
      }
    }
  }

  lemma StepReachable(threads: nat, s: State, s': State, t: Tid)
    requires Reachable(threads, s) && t < |s.pc| && ThreadStep(s, s', t)
    ensures Reachable(threads, s')
  {
    var run: seq<State> :| Run(threads, run) && run[|run| - 1] == s;
    var longer := run + [s'];
    forall i | 0 <= i < |longer| - 1 ensures NextAt(longer, i) {
      if i < |run| - 1 {
        assert NextAt(run, i);
      } else {
        assert Next(s, s');
      }
    }
    assert Run(threads, longer) && longer[|longer| - 1] == s';
  }

  /** n times thread 1 has taken and released the lock; thread 0 is at a. */
  function After(n: nat, a: PC): State {
    State(n, Word(n, false), [a, Out], seq(n, _ => 1), seq(n, _ => 1))
  }

  /** The same while thread 1 is at b inside its next round, with its ticket taken or not. */
  function Within(n: nat, taken: bool, a: PC, b: PC): State {
    var m := if taken then n + 1 else n;
    State(m, Word(n, false), [a, b], seq(m, _ => 1), seq(m, _ => 1))
  }

  /** A round of thread 1: try_lock. */
  lemma TakesOnce(n: nat, a: PC)
    requires Reachable(2, After(n, a))
    ensures Reachable(2, Within(n, true, a, Holding(n)))
  {
    StepReachable(2, After(n, a), Within(n, false, a, Try(LoadTicket)), 1);
    StepReachable(2, Within(n, false, a, Try(LoadTicket)), Within(n, false, a, Try(Compare(n))), 1);
    StepReachable(2, Within(n, false, a, Try(Compare(n))), Within(n, false, a, Try(CasTicket(n))), 1);
    assert Within(n, true, a, Holding(n)) == Acquired(Join(Within(n, false, a, Try(CasTicket(n))), 1), 1, n);
    StepReachable(2, Within(n, false, a, Try(CasTicket(n))), Within(n, true, a, Holding(n)), 1);
  }

  /** And unlock. */
  lemma ReleasesOnce(n: nat, a: PC)
    requires Reachable(2, Within(n, true, a, Holding(n)))
    ensures Reachable(2, After(n + 1, a))
  {
    var mine := Unlock(Release(n, Word(n, false)));
    StepReachable(2, Within(n, true, a, Holding(n)), Within(n, true, a, Unlock(LoadServing(n))), 1);
    StepReachable(2, Within(n, true, a, Unlock(LoadServing(n))), Within(n, true, a, mine), 1);
    StepReachable(2, Within(n, true, a, mine), After(n + 1, a), 1);
  }

  /** Meanwhile thread 0 does not move. */
  lemma {:induction false} Rounds(n: nat, m: nat, a: PC)
    requires n <= m && Reachable(2, After(n, a))
    ensures Reachable(2, After(m, a))
    decreases m - n
  {
    if n < m {
      TakesOnce(n, a);
      ReleasesOnce(n, a);
      Rounds(n + 1, m, a);
    }
  }

  /** Thread 0 reads ticket k; when it reads serving, thread 1 has moved both words on to m. */
  lemma StaleTicketRead(k: nat, m: nat)
    requires k < m
    ensures Reachable(2, After(m, TryOrWait(Second(k))))
  {
    var start := After(0, Out);
    assert Run(2, [start]) && [start][0] == start;
    Rounds(0, k, Out);
    StepReachable(2, After(k, Out), After(k, TryOrWait(First)), 0);
    StepReachable(2, After(k, TryOrWait(First)), After(k, TryOrWait(Second(k))), 0);
    Rounds(k, m, TryOrWait(Second(k)));
  }

  /** The ticket misses, thread 0 flags the word of a free lock and goes to sleep on it. */
  lemma StaleTicketSleeps(k: nat, m: nat) returns (s: State)
    requires k < m
    ensures Reachable(2, s) && Stranded(s, 0, k, m)
    ensures s.serving == Word(s.ticket, true) && s.pc == [TryOrWait(Sleep(k, s.serving)), Out]
  {
    StaleTicketRead(k, m);
    var w := Word(m, true);
    var flagging := After(m, TryOrWait(CasFlag(k, Word(m, false))));
    StepReachable(2, After(m, TryOrWait(Second(k))), flagging, 0);
    var waiting := After(m, TryOrWait(Wait(k, w))).(serving := w);
    StepReachable(2, flagging, waiting, 0);
    s := After(m, TryOrWait(Sleep(k, w))).(serving := w);
    StepReachable(2, waiting, s, 0);
  }

  function Held(s: State): seq<bool> {
    seq(|s.pc|, i requires 0 <= i < |s.pc| => s.pc[i].Holding?)
  }

  /** The lock is as the delegation protocol assumes; for is_locked see FalseMeansFree. */
  lemma MeetsContract(threads: nat, s: State, s': State, t: Tid, h: Option<Tid>) returns (h': Option<Tid>)
    requires Reachable(threads, s) && t < |s.pc| && ThreadStep(s, s', t) && HeldBy(Held(s), h)
    ensures HeldBy(Held(s'), h') && Permitted(h, h', t)
  {
    ReachableInv(threads, s);
    if h.Some? {
      assert ThreadOk(s, h.value);
    }
    OthersHoldOn(s, s', t);
    TakesFreeLock(s, s', t, h);
    h' := OneChange(Held(s), h, t, s'.pc[t].Holding?);
    assert Held(s') == Held(s)[t := s'.pc[t].Holding?];
  }

  lemma OthersHoldOn(s: State, s': State, t: Tid)
    requires t < |s.pc| && ThreadStep(s, s', t)
    ensures |s'.pc| == |s.pc|
    ensures forall u :: 0 <= u < |s.pc| && u != t ==> s'.pc[u].Holding? == s.pc[u].Holding?
  {
    if s.pc[t] != Unlock(NotifyAll) {
      assert s'.pc == s.pc[t := s'.pc[t]];
    }
  }

  lemma TakesFreeLock(s: State, s': State, t: Tid, h: Option<Tid>)
    requires t < |s.pc| == |s'.pc| && Inv(s) && ThreadStep(s, s', t) && HeldBy(Held(s), h)
    requires forall u :: 0 <= u < |s.pc| && u != t ==> s'.pc[u].Holding? == s.pc[u].Holding?
    ensures s'.pc[t].Holding? && !s.pc[t].Holding? ==> h == None
  {
    StepKeepsTickets(s, s', t);
    assert ThreadOk(s', t);
    if h.Some? {
      assert ThreadOk(s', h.value);
    }
  }

  // ---------- is_locked ----------

  function HeldAlong(run: seq<State>): seq<seq<bool>> {
    seq(|run|, i requires 0 <= i < |run| => Held(run[i]))
  }

  /** serving moves on by one at a time, and nobody holds the lock when it has just done so. */
  lemma ServingMoves(s: State, s': State, t: Tid)
    requires t < |s.pc| && Inv(s) && ThreadStep(s, s', t)
    ensures s.ticket <= s'.ticket && (s'.serving.num == s.serving.num || s'.serving.num == s.serving.num + 1)
    ensures s'.serving.num == s.serving.num + 1 ==> HeldBy(Held(s'), None)
  {
    assert ThreadOk(s, t);
    if s'.serving.num == s.serving.num + 1 {
      assert s'.pc == s.pc[t := s'.pc[t]] && !s'.pc[t].Holding?;
      StepKeepsTickets(s, s', t);
      forall u | 0 <= u < |s'.pc| ensures !s'.pc[u].Holding? {
        assert ThreadOk(s, u) && ThreadOk(s', u);
      }
    }
  }

  lemma RunServingMoves(threads: nat, run: seq<State>, i: nat)
    requires Run(threads, run) && i + 1 < |run|
    ensures run[i].ticket <= run[i + 1].ticket
    ensures run[i + 1].serving.num == run[i].serving.num || run[i + 1].serving.num == run[i].serving.num + 1
    ensures run[i + 1].serving.num == run[i].serving.num + 1 ==> HeldBy(Held(run[i + 1]), None)
  {
    RunKeepsInv(threads, run, i);
    assert NextAt(run, i);
    var t: Tid :| t < |run[i].pc| && ThreadStep(run[i], run[i + 1], t);
    ServingMoves(run[i], run[i + 1], t);
  }

  lemma {:induction false} Monotone(threads: nat, run: seq<State>, i: nat, j: nat)
    requires Run(threads, run) && i <= j < |run|
    ensures run[i].ticket <= run[j].ticket && run[i].serving.num <= run[j].serving.num
    decreases j
  {
    if i < j {
      Monotone(threads, run, i, j - 1);
      RunServingMoves(threads, run, j - 1);
    }
  }

  /** When serving reaches a number, there is a moment without a holder. */
  lemma {:induction false} FreeOnTheWay(threads: nat, run: seq<State>, i: nat, j: nat)
    requires Run(threads, run) && i <= j < |run| && run[i].serving.num < run[j].serving.num
    ensures FreeWithin(HeldAlong(run), i, j)
    decreases j
  {
    RunServingMoves(threads, run, j - 1);
    if run[j].serving.num == run[j - 1].serving.num {
      FreeOnTheWay(threads, run, i, j - 1);
      var m :| i <= m <= j - 1 && HeldBy(HeldAlong(run)[m], None);
    } else {
      assert HeldBy(HeldAlong(run)[j], None);
    }
  }

  /** While no ticket is outstanding nobody holds the lock. */
  lemma FreeWithoutTickets(threads: nat, run: seq<State>, i: nat)
    requires Run(threads, run) && i < |run| && run[i].serving.num == run[i].ticket
    ensures HeldBy(HeldAlong(run)[i], None)
  {
    RunKeepsInv(threads, run, i);
    forall u | 0 <= u < |run[i].pc| ensures !run[i].pc[u].Holding? {
      assert ThreadOk(run[i], u);
    }
  }

  /**
   * is_locked loads ticket and serving one after the other, in either order, and answers false if they are
   * equal and unflagged. Then nobody held the lock at some moment from the first load to the second.
   */
  lemma FalseMeansFree(threads: nat, run: seq<State>, i: nat, j: nat)
    requires Run(threads, run) && i <= j < |run|
    requires run[j].serving == Word(run[i].ticket, false) || run[i].serving == Word(run[j].ticket, false)
    ensures FreeWithin(HeldAlong(run), i, j)
  {
    RunKeepsInv(threads, run, i);
    Monotone(threads, run, i, j);
    if run[i].serving.num == run[i].ticket {
      FreeWithoutTickets(threads, run, i);
      assert HeldBy(HeldAlong(run)[i], None);
    } else {
      FreeOnTheWay(threads, run, i, j);
    }
  }

  // ---------- what the calls answer ----------

  /** How far a call of lock whose ticket is served is from returning. */
  function ToReturn(pc: PC): nat
    requires pc.Lock?
  {
    match pc.lp
    case Take => 3
    case Load(_) => 1
    case Flag(_, _) => 1
    case Futex(_, _) => 2
    case Asleep(_, _) => 2
  }

  /** A call of lock that takes the ticket being served, or has it, returns by its own steps. */
  lemma ServedCallReturns(threads: nat, s: State, s': State, t: Tid)
    requires Reachable(threads, s) && t < |s.pc| && ThreadStep(s, s', t) && s.pc[t].Lock?
    requires if s.pc[t].lp.Take? then s.serving.num == s.ticket else s.pc[t].lp.num == s.serving.num
    ensures t < |s'.pc|
    ensures s'.pc[t] == Holding(s.serving.num)
      || (&& s'.pc[t].Lock? && !s'.pc[t].lp.Take? && s'.pc[t].lp.num == s'.serving.num == s.serving.num
          && ToReturn(s'.pc[t]) < ToReturn(s.pc[t]))
  {
    ReachableInv(threads, s);
    assert ThreadOk(s, t);
  }

  /**
   * try_lock takes a free lock whose word is not flagged, and try_lock_or_wait any free lock, if nothing moves
   * between its loads.
   */
  lemma TriesTakeFreeLock(s: State, s': State, t: Tid)
    requires t < |s.pc| && ThreadStep(s, s', t) && s.serving.num == s.ticket
    ensures t < |s'.pc|
    ensures s.pc[t] == Try(LoadTicket) ==> s'.pc[t] == Try(Compare(s.ticket)) && s'.serving == s.serving
    ensures s.pc[t] == Try(Compare(s.ticket)) && !s.serving.flag ==> s'.pc[t] == Try(CasTicket(s.ticket))
    ensures s.pc[t] == Try(CasTicket(s.ticket)) ==> s'.pc[t] == Holding(s.ticket)
    ensures s.pc[t] == TryOrWait(First) ==> s'.pc[t] == TryOrWait(Second(s.ticket)) && s'.serving == s.serving
    ensures s.pc[t] == TryOrWait(Second(s.ticket)) ==> s'.pc[t] == TryOrWait(CasTake(s.ticket, s.serving))
    ensures s.pc[t].TryOrWait? && s.pc[t].wp.CasTake? && s.pc[t].wp.ticket == s.ticket ==> s'.pc[t] == Holding(s.ticket)
  {
  }

  /** A thread that comes to its system call sleeps exactly if the word is still the flagged one it has seen. */
  lemma SleepsWhenUnchanged(threads: nat, s: State, s': State, t: Tid)
    requires Reachable(threads, s) && t < |s.pc| && ThreadStep(s, s', t)
    ensures t < |s'.pc|
    ensures s.pc[t].Lock? && s.pc[t].lp.Futex? ==>
      && s.pc[t].lp.current.flag
      && SleepsOn(s'.pc[t]) == if s.serving == s.pc[t].lp.current then Some(s.serving) else None
    ensures s.pc[t].TryOrWait? && s.pc[t].wp.Wait? ==>
      && s.pc[t].wp.serving.flag
      && SleepsOn(s'.pc[t]) == if s.serving == s.pc[t].wp.serving then Some(s.serving) else None
  {
    ReachableInv(threads, s);
    assert ThreadOk(s, t);
  }

  /** unlock serves the next ticket, flag cleared, and if the word was flagged wakes all sleepers before it returns. */
  lemma UnlockServesNext(threads: nat, s: State, s': State, t: Tid)
    requires Reachable(threads, s) && t < |s.pc| && ThreadStep(s, s', t) && s.pc[t].Unlock?
    ensures t < |s'.pc|
    ensures s.pc[t].up.LoadServing? ==> s'.pc[t].Unlock? && s'.pc[t].up.Release? && s'.serving == s.serving
    ensures s.pc[t].up.Release? ==>
      s'.serving == Word(s.serving.num + 1, false) && s'.pc[t] == if s.serving.flag then Unlock(NotifyAll) else Out
    ensures s.pc[t].up.NotifyAll? ==> s'.pc[t] == Out && forall u :: 0 <= u < |s'.pc| ==> SleepsOn(s'.pc[u]).None?
  {
    ReachableInv(threads, s);
    assert ThreadOk(s, t);
  }
}
