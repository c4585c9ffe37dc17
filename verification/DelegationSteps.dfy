/** The invariant holds initially, is kept by every step, and so holds in every reachable state. */
module DelegationSteps {
  import opened Prelude
  import opened TantrumQueue
  import opened Delegation
  import opened DelegationInvariant
  import opened DelegationQueues
  import opened DelegationWriters
  import opened DelegationCalls
  import opened DelegationOrder
  import opened DelegationReaders

  lemma InitInv(c: Config, s: State)
    requires ValidConfig(c) && Init(c, s)
    ensures Inv(c, s)
  {
    InitQueues(c, s);
    InitCalls(c, s);
    InitReaders(c, s);
  }

  lemma InitCalls(c: Config, s: State)
    requires ValidConfig(c) && Init(c, s)
    ensures Locks(c, s) && Calls(c, s) && Places(c, s) && Order(c, s) && Cleared(c, s)
  {
  }

  lemma InitQueues(c: Config, s: State)
    requires ValidConfig(c) && Init(c, s)
    ensures Queues(c, s) && Writers(c, s)
  {
    forall n | 0 <= n < c.nodes ensures Wf(c.entries, s.q[n]) && Quiet(s.q[n]) {
      NewIsQuiet(c.entries, s.q[n].cells);
    }
  }

  lemma InitReaders(c: Config, s: State)
    requires ValidConfig(c) && Init(c, s)
    ensures Readers(c, s)
  {
    assert forall g :: 0 <= g < c.groups ==> Members(c, s.pc, g) == {};
    assert Raisers(s.pc) == {};
  }

  lemma InvOnStart(c: Config, s: State, s': State, t: Tid, req: nat, direct: bool)
    requires ValidConfig(c) && Inv(c, s) && t < |s.pc| && StartCall(c, s, s', t, req, direct)
    ensures Inv(c, s')
  {
    LocksOnStart(c, s, s', t, req, direct);
    QueuesOnStart(c, s, s', t, req, direct);
    WritersOnStart(c, s, s', t, req, direct);
    CallsOnStart(c, s, s', t, req, direct);
    PlacesOnStart(c, s, s', t, req, direct);
    OrderOnStart(c, s, s', t, req, direct);
    ReadersOnStart(c, s, s', t, req, direct);
  }

  lemma InvOnCall(c: Config, s: State, s': State, t: Tid)
    requires ValidConfig(c) && Inv(c, s) && t < |s.pc| && CallStep(c, s, s', t)
    ensures Inv(c, s')
  {
    LocksOnCall(c, s, s', t);
    QueuesOnCall(c, s, s', t);
    WritersOnCall(c, s, s', t);
    CallsOnCall(c, s, s', t);
    PlacesOnCall(c, s, s', t);
    OrderOnCall(c, s, s', t);
    ReadersOnCall(c, s, s', t);
  }

  lemma InvOnEnqueue(c: Config, s: State, s': State, t: Tid)
    requires ValidConfig(c) && Inv(c, s) && t < |s.pc| && EnqueueStep(c, s, s', t)
    ensures Inv(c, s')
  {
    LocksOnEnqueue(c, s, s', t);
    QueuesOnEnqueue(c, s, s', t);
    CallsOnEnqueue(c, s, s', t);
    ReadersOnEnqueue(c, s, s', t);
    if s.pc[t].Calling? {
      WritersOnReserve(c, s, s', t);
      PlacesOnReserve(c, s, s', t);
      OrderOnReserve(c, s, s', t);
    } else {
      WritersOnStore(c, s, s', t);
      PlacesOnStore(c, s, s', t);
      OrderOnStore(c, s, s', t);
    }
  }

  lemma InvOnGuard(c: Config, s: State, s': State, t: Tid)
    requires ValidConfig(c) && Inv(c, s) && t < |s.pc| && GuardStep(c, s, s', t)
    ensures Inv(c, s')
  {
    LocksOnGuard(c, s, s', t);
    QueuesOnGuard(c, s, s', t);
    WritersOnGuard(c, s, s', t);
    CallsOnGuard(c, s, s', t);
    PlacesOnGuard(c, s, s', t);
    OrderOnGuard(c, s, s', t);
    ReadersOnGuard(c, s, s', t);
  }

  lemma InvOnOwn(c: Config, s: State, s': State, t: Tid)
    requires ValidConfig(c) && Inv(c, s) && t < |s.pc| && OwnStep(c, s, s', t)
    ensures Inv(c, s')
  {
    LocksOnOwn(c, s, s', t);
    QueuesOnOwn(c, s, s', t);
    WritersOnOwn(c, s, s', t);
    CallsOnOwn(c, s, s', t);
    PlacesOnOwn(c, s, s', t);
    OrderOnOwn(c, s, s', t);
    ReadersOnOwn(c, s, s', t);
  }

  lemma InvOnFlush(c: Config, s: State, s': State, t: Tid)
    requires ValidConfig(c) && Inv(c, s) && t < |s.pc| && FlushStep(c, s, s', t)
    ensures Inv(c, s')
  {
    LocksOnFlush(c, s, s', t);
    QueuesOnFlush(c, s, s', t);
    WritersOnFlush(c, s, s', t);
    CallsOnFlush(c, s, s', t);
    PlacesOnFlush(c, s, s', t);
    OrderOnFlush(c, s, s', t);
    ReadersOnFlush(c, s, s', t);
  }

  lemma InvOnReader(c: Config, s: State, s': State, t: Tid)
    requires ValidConfig(c) && Inv(c, s) && t < |s.pc| && ReaderStep(c, s, s', t)
    ensures Inv(c, s')
  {
    LocksOnReader(c, s, s', t);
    QueuesOnReader(c, s, s', t);
    WritersOnReader(c, s, s', t);
    CallsOnReader(c, s, s', t);
    PlacesOnReader(c, s, s', t);
    OrderOnReader(c, s, s', t);
    ReadersOnReader(c, s, s', t);
  }

  lemma StepKeepsInv(c: Config, s: State, s': State, t: Tid)
    requires ValidConfig(c) && Inv(c, s) && t < |s.pc| && ThreadStep(c, s, s', t)
    ensures Inv(c, s')
  {
    if req: nat, direct: bool :| StartCall(c, s, s', t, req, direct) {
      InvOnStart(c, s, s', t, req, direct);
    } else if CallStep(c, s, s', t) {
      InvOnCall(c, s, s', t);
    } else if EnqueueStep(c, s, s', t) {
      InvOnEnqueue(c, s, s', t);
    } else if GuardStep(c, s, s', t) {
      InvOnGuard(c, s, s', t);
    } else if OwnStep(c, s, s', t) {
      InvOnOwn(c, s, s', t);
    } else if FlushStep(c, s, s', t) {
      InvOnFlush(c, s, s', t);
    } else {
      InvOnReader(c, s, s', t);
    }
  }

  lemma NextKeepsInv(c: Config, s: State, s': State)
    requires ValidConfig(c) && Inv(c, s) && Next(c, s, s')
    ensures Inv(c, s')
  {
    var t: Tid :| t < |s.pc| && ThreadStep(c, s, s', t);
    StepKeepsInv(c, s, s', t);
  }

  lemma {:induction false} RunKeepsInv(c: Config, run: seq<State>, i: nat, s: State)
    requires ValidConfig(c) && Run(c, run) && i < |run| && s == run[i]
    ensures Inv(c, s)
  {
    if i == 0 {
      InitInv(c, s);
    } else {
      var before := run[i - 1];
      RunKeepsInv(c, run, i - 1, before);
      StepOf(c, run, i - 1, before, s);
      NextKeepsInv(c, before, s);
    }
  }

  lemma ReachableInv(c: Config, s: State)
    requires ValidConfig(c) && Reachable(c, s)
    ensures Inv(c, s)
  {
    var run :| Run(c, run) && run[|run| - 1] == s;
    RunKeepsInv(c, run, |run| - 1, s);
  }
}
