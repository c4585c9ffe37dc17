/** Every step keeps the reader counters exact and readers apart from writers that have scanned them. */
module DelegationReaders {
  import opened Prelude
  import opened TantrumQueue
  import opened Delegation
  import opened DelegationInvariant

  /** Readers found in a section, or let in, belong to groups that no scan has passed yet. */
  ghost predicate Apart(c: Config, pc: seq<PC>)
    requires ValidConfig(c) && |pc| == |c.node|
  {
    forall t, r :: 0 <= t < |pc| && 0 <= r < |pc| && Admitted(pc[r]) ==> Scanned(c, pc[t]) <= Group(c, r)
  }

  lemma MembersSame(c: Config, pc: seq<PC>, t: Tid, x: PC)
    requires ValidConfig(c) && |pc| == |c.node| && t < |pc| && Counted(x) == Counted(pc[t])
    ensures forall g :: 0 <= g < c.groups ==> Members(c, pc[t := x], g) == Members(c, pc, g)
  {
  }

  lemma RaisersSame(pc: seq<PC>, t: Tid, x: PC)
    requires t < |pc| && HasRaised(x) == HasRaised(pc[t])
    ensures Raisers(pc[t := x]) == Raisers(pc)
  {
  }

  lemma MembersJoin(c: Config, pc: seq<PC>, t: Tid, x: PC)
    requires ValidConfig(c) && |pc| == |c.node| && t < |pc| && Counted(x) && !Counted(pc[t])
    ensures forall g :: 0 <= g < c.groups ==>
      |Members(c, pc[t := x], g)| == |Members(c, pc, g)| + if g == Group(c, t) then 1 else 0
  {
    forall g | 0 <= g < c.groups
      ensures |Members(c, pc[t := x], g)| == |Members(c, pc, g)| + if g == Group(c, t) then 1 else 0
    {
      if g == Group(c, t) {
        SizeWith(Members(c, pc, g), Members(c, pc[t := x], g), t);
      } else {
        assert Members(c, pc[t := x], g) == Members(c, pc, g);
      }
    }
  }

  lemma MembersLeave(c: Config, pc: seq<PC>, t: Tid, x: PC)
    requires ValidConfig(c) && |pc| == |c.node| && t < |pc| && !Counted(x) && Counted(pc[t])
    ensures forall g :: 0 <= g < c.groups ==>
      |Members(c, pc[t := x], g)| == |Members(c, pc, g)| - if g == Group(c, t) then 1 else 0
  {
    assert pc[t := x][t := pc[t]] == pc;
    MembersJoin(c, pc[t := x], t, pc[t]);
  }

  lemma ReadersFrame(c: Config, s: State, s': State, t: Tid)
    requires ValidConfig(c) && Shape(c, s) && Shape(c, s') && t < |s.pc| && Readers(c, s)
    requires s'.pc == s.pc[t := s'.pc[t]] && s'.rc == s.rc && s'.barrier == s.barrier
    requires s'.pc[t].Reader? ==> c.rw && RaisedFits(s'.pc[t])
    requires Counted(s'.pc[t]) == Counted(s.pc[t]) && HasRaised(s'.pc[t]) == HasRaised(s.pc[t])
    requires Apart(c, s'.pc)
    ensures Readers(c, s')
  {
    MembersSame(c, s.pc, t, s'.pc[t]);
    RaisersSame(s.pc, t, s'.pc[t]);
  }

  /** A step of a thread that is not a reader and does not advance a scan. */
  lemma ReadersIdle(c: Config, s: State, s': State, t: Tid)
    requires ValidConfig(c) && Shape(c, s) && Shape(c, s') && t < |s.pc| && Readers(c, s)
    requires s'.pc == s.pc[t := s'.pc[t]] && s'.rc == s.rc && s'.barrier == s.barrier
    requires !s.pc[t].Reader? && !s'.pc[t].Reader? && Scanned(c, s'.pc[t]) <= Scanned(c, s.pc[t])
    ensures Readers(c, s')
  {
    ReadersFrame(c, s, s', t);
  }

  lemma ReadersOnStart(c: Config, s: State, s': State, t: Tid, req: nat, direct: bool)
    requires ValidConfig(c) && Shape(c, s) && t < |s.pc| && Readers(c, s) && StartCall(c, s, s', t, req, direct)
    ensures Shape(c, s') && Readers(c, s')
  {
    ReadersIdle(c, s, s', t);
  }

  lemma ReadersOnCall(c: Config, s: State, s': State, t: Tid)
    requires ValidConfig(c) && Shape(c, s) && t < |s.pc| && Readers(c, s) && CallStep(c, s, s', t)
    ensures Shape(c, s') && Readers(c, s')
  {
    ReadersIdle(c, s, s', t);
  }

  lemma ReadersOnEnqueue(c: Config, s: State, s': State, t: Tid)
    requires ValidConfig(c) && Shape(c, s) && t < |s.pc| && Readers(c, s) && EnqueueStep(c, s, s', t)
    ensures Shape(c, s') && Readers(c, s')
  {
    ReadersIdle(c, s, s', t);
  }

  lemma ReadersOnGuard(c: Config, s: State, s': State, t: Tid)
    requires ValidConfig(c) && Shape(c, s) && t < |s.pc| && Readers(c, s) && GuardStep(c, s, s', t)
    ensures Shape(c, s') && Readers(c, s')
  {
    ReadersIdle(c, s, s', t);
  }

  lemma FlushFrame(c: Config, s: State, s': State, t: Tid)
    requires ValidConfig(c) && Shape(c, s) && t < |s.pc| && FlushStep(c, s, s', t)
    ensures Shape(c, s') && s'.pc == s.pc[t := s'.pc[t]] && s'.rc == s.rc && s'.barrier == s.barrier
    ensures !s'.pc[t].Reader? && Scanned(c, s'.pc[t]) <= Scanned(c, s.pc[t])
  {
  }

  lemma ReadersOnFlush(c: Config, s: State, s': State, t: Tid)
    requires ValidConfig(c) && Shape(c, s) && t < |s.pc| && Readers(c, s) && FlushStep(c, s, s', t)
    ensures Shape(c, s') && Readers(c, s')
  {
    FlushFrame(c, s, s', t);
    ReadersIdle(c, s, s', t);
  }

  /** A group whose counter is zero holds no reader. */
  lemma EmptyGroup(c: Config, s: State, g: nat, r: Tid)
    requires ValidConfig(c) && Shape(c, s) && Readers(c, s) && g < c.groups && s.rc[g] <= 0
    requires r < |s.pc| && Admitted(s.pc[r])
    ensures Group(c, r) != g
  {
    assert Group(c, r) == g ==> r in Members(c, s.pc, g);
  }

  lemma ReadersOnOwn(c: Config, s: State, s': State, t: Tid)
    requires ValidConfig(c) && Shape(c, s) && t < |s.pc| && Readers(c, s) && OwnStep(c, s, s', t)
    ensures Shape(c, s') && Readers(c, s')
  {
    if s.pc[t].Own? && s.pc[t].point.Scan? && c.rw && s.pc[t].point.g < c.groups && s.rc[s.pc[t].point.g] <= 0 {
      forall r | 0 <= r < |s'.pc| && Admitted(s'.pc[r]) ensures Scanned(c, s'.pc[t]) <= Group(c, r) {
        EmptyGroup(c, s, s.pc[t].point.g, r);
      }
      ReadersFrame(c, s, s', t);
    } else if s.pc[t].Own? && s.pc[t].point.Scan? && !c.rw {
      ReadersFrame(c, s, s', t);
    } else {
      ReadersIdle(c, s, s', t);
    }
  }

  /** If the lock that readers look at has no holder, no scan is under way. */
  lemma NoScan(c: Config, s: State)
    requires ValidConfig(c) && Shape(c, s) && Locks(c, s) && GuardHolder(c, s) == None
    ensures forall t :: 0 <= t < |s.pc| ==> Scanned(c, s.pc[t]) == 0
  {
    assert forall t :: 0 <= t < |s.pc| ==> !InGuard(s.pc[t]);
  }

  /** What the checks of is_locked in rlock change, and what they show. */
  lemma CheckFrame(c: Config, s: State, s': State, t: Tid)
    requires ValidConfig(c) && Shape(c, s) && t < |s.pc| && ReaderStep(c, s, s', t)
    requires s.pc[t].Reader? && (s.pc[t].rp.Check? || s.pc[t].rp.Spin?)
    ensures Shape(c, s') && s'.pc == s.pc[t := s'.pc[t]] && s'.rc == s.rc && s'.barrier == s.barrier
    ensures s'.pc[t].Reader? && RaisedFits(s'.pc[t])
    ensures Counted(s'.pc[t]) == Counted(s.pc[t]) && HasRaised(s'.pc[t]) == HasRaised(s.pc[t])
    ensures Admitted(s'.pc[t]) ==> Admitted(s.pc[t]) || GuardHolder(c, s) == None
  {
  }

  lemma ReadersOnCheck(c: Config, s: State, s': State, t: Tid)
    requires ValidConfig(c) && Shape(c, s) && t < |s.pc| && Locks(c, s) && Readers(c, s) && ReaderStep(c, s, s', t)
    requires s.pc[t].Reader? && (s.pc[t].rp.Check? || s.pc[t].rp.Spin?)
    ensures Shape(c, s') && Readers(c, s')
  {
    CheckFrame(c, s, s', t);
    if Admitted(s'.pc[t]) && !Admitted(s.pc[t]) {
      NoScan(c, s);
    }
    ReadersFrame(c, s, s', t);
  }

  lemma ReadersOnCount(c: Config, s: State, s': State, t: Tid)
    requires ValidConfig(c) && Shape(c, s) && t < |s.pc| && Readers(c, s) && ReaderStep(c, s, s', t)
    requires s.pc[t].Reader? && (s.pc[t].rp.Arrive? || s.pc[t].rp.Depart? || s.pc[t].rp.Reading?)
    ensures Shape(c, s') && Readers(c, s')
  {
    RaisersSame(s.pc, t, s'.pc[t]);
    if s.pc[t].rp.Arrive? {
      MembersJoin(c, s.pc, t, s'.pc[t]);
    } else {
      MembersLeave(c, s.pc, t, s'.pc[t]);
    }
    assert Apart(c, s'.pc);
  }

  lemma RaisersJoin(pc: seq<PC>, t: Tid, x: PC)
    requires t < |pc| && HasRaised(x) && !HasRaised(pc[t])
    ensures |Raisers(pc[t := x])| == |Raisers(pc)| + 1
  {
    SizeWith(Raisers(pc), Raisers(pc[t := x]), t);
  }

  lemma ReadersOnRaise(c: Config, s: State, s': State, t: Tid)
    requires ValidConfig(c) && Shape(c, s) && t < |s.pc| && Readers(c, s) && ReaderStep(c, s, s', t)
    requires s.pc[t].Reader? && s.pc[t].rp.Raise?
    ensures Shape(c, s') && Readers(c, s')
  {
    MembersSame(c, s.pc, t, s'.pc[t]);
    RaisersJoin(s.pc, t, s'.pc[t]);
    assert Apart(c, s'.pc);
  }

  lemma ReadersOnLower(c: Config, s: State, s': State, t: Tid)
    requires ValidConfig(c) && Shape(c, s) && t < |s.pc| && Readers(c, s) && ReaderStep(c, s, s', t)
    requires s.pc[t].Reader? && s.pc[t].rp.Lower?
    ensures Shape(c, s') && Readers(c, s')
  {
    MembersSame(c, s.pc, t, s'.pc[t]);
    assert s'.pc[t := s.pc[t]] == s.pc;
    RaisersJoin(s'.pc, t, s.pc[t]);
    assert Apart(c, s'.pc);
  }

  lemma ReadersOnReader(c: Config, s: State, s': State, t: Tid)
    requires ValidConfig(c) && Shape(c, s) && t < |s.pc| && Locks(c, s) && Readers(c, s) && ReaderStep(c, s, s', t)
    ensures Shape(c, s') && Readers(c, s')
  {
    if s.pc[t].Idle? {
      ReadersFrame(c, s, s', t);
    } else {
      match s.pc[t].rp
      case Arrive | Depart | Reading => ReadersOnCount(c, s, s', t);
      case Check(_) => ReadersOnCheck(c, s, s', t);
      case Spin(_) => ReadersOnCheck(c, s, s', t);
      case Raise => ReadersOnRaise(c, s, s', t);
      case Lower => ReadersOnLower(c, s, s', t);
    }
  }
}
