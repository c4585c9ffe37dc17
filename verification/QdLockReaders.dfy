/**
 * Readers do not stand in the way for ever: those that writers wait for leave, whether they
 * were let in or not, and while the lock is free those that raised the barrier get in.
 */
module QdLockReaders {
  import opened Prelude
  import opened QdLock
  import opened QdLockPaths
  import D = Delegation
  import DI = DelegationInvariant
  import L = McsFutexLock

  /** Between x and y only reader r has moved. */
  ghost predicate OnlyReader(x: State, y: State, r: Tid)
    requires r < |x.d.pc|
  {
    && |y.d.pc| == |x.d.pc| && y.d.pc == x.d.pc[r := y.d.pc[r]]
    && y.l == x.l
    && y.d == x.d.(pc := y.d.pc, rc := y.d.rc, barrier := y.d.barrier)
  }

  /** y can be reached from x, and if a call can be finished from y, then also from x. */
  ghost predicate Leads(c: D.Config, x: State, y: State)
    requires ValidConfig(c)
  {
    && Reachable(c, y) && Shape(c, y) && L.Inv(Threads(c), y.l) && Glue(c, y)
    && (CanFinish(c, y) ==> CanFinish(c, x))
  }

  /** Where a reader's next step takes it. */
  function NextPoint(c: D.Config, pc: D.PC, word: L.Word): D.PC
    requires pc.Reader?
  {
    match pc.rp
    case Arrive => D.Reader(D.Check(false), pc.raised, pc.patience)
    case Depart => D.Reader(D.Spin(false), pc.raised, pc.patience)
    case Raise => D.Reader(D.Spin(false), true, pc.patience + 1)
    case Lower => D.Reader(D.Reading, pc.raised, pc.patience)
    case Reading => D.Idle
    case Check(_) => Checked(c, pc, word)
    case Spin(_) => Checked(c, pc, word)
  }

  /** The step of a reader other than a check. */
  function ReaderNext(c: D.Config, d: D.State, r: Tid): D.State
    requires D.ValidConfig(c) && D.Shape(c, d) && r < |d.pc| && d.pc[r].Reader? && !Checking(d.pc[r])
  {
    var g := D.Group(c, r);
    var s := D.Goto(d, r, NextPoint(c, d.pc[r], L.FREE));
    match d.pc[r].rp
    case Arrive => s.(rc := d.rc[g := d.rc[g] + 1])
    case Depart => s.(rc := d.rc[g := d.rc[g] - 1])
    case Reading => s.(rc := d.rc[g := d.rc[g] - 1])
    case Raise => s.(barrier := d.barrier + 1)
    case _ => s.(barrier := d.barrier - 1)
  }

  lemma ReaderIsStep(c: D.Config, d: D.State, r: Tid)
    requires D.ValidConfig(c) && D.Shape(c, d) && r < |d.pc| && d.pc[r].Reader? && !Checking(d.pc[r])
    ensures D.ThreadStep(c, d, ReaderNext(c, d, r), r)
    ensures
      var d' := ReaderNext(c, d, r);
      && d' == d.(pc := d'.pc, rc := d'.rc, barrier := d'.barrier)
      && d'.pc == d.pc[r := NextPoint(c, d.pc[r], L.FREE)] && d'.pc[r] != d.pc[r]
  {
    assert D.ReaderStep(c, d, ReaderNext(c, d, r), r);
  }

  lemma ReaderMove(c: D.Config, x: State, r: Tid) returns (y: State)
    requires ValidConfig(c) && Reachable(c, x) && Shape(c, x) && r < Threads(c) && x.d.pc[r].Reader?
    ensures Leads(c, x, y) && OnlyReader(x, y, r) && y.d.pc[r] == NextPoint(c, x.d.pc[r], x.l.word)
    ensures Moves(c, x, y)
  {
    if Checking(x.d.pc[r]) {
      y := ReaderChecks(c, x, r);
      return;
    }
    y := ReaderGoesOn(c, x, r);
  }

  lemma ReaderChecks(c: D.Config, x: State, r: Tid) returns (y: State)
    requires ValidConfig(c) && Reachable(c, x) && Shape(c, x) && r < Threads(c) && Checking(x.d.pc[r])
    ensures Leads(c, x, y) && OnlyReader(x, y, r) && y.d.pc[r] == NextPoint(c, x.d.pc[r], x.l.word)
    ensures Moves(c, x, y)
  {
    y := CheckedState(c, x, r);
    CheckMove(c, x, y, r);
    OnlyCheckerMoved(c, x, r);
  }

  lemma OnlyCheckerMoved(c: D.Config, x: State, r: Tid)
    requires r < |x.d.pc| && Checking(x.d.pc[r])
    ensures OnlyReader(x, CheckedState(c, x, r), r)
    ensures CheckedState(c, x, r).d.pc[r] == NextPoint(c, x.d.pc[r], x.l.word)
  {
  }

  lemma ReaderGoesOn(c: D.Config, x: State, r: Tid) returns (y: State)
    requires ValidConfig(c) && Reachable(c, x) && Shape(c, x) && r < Threads(c) && x.d.pc[r].Reader?
    requires !Checking(x.d.pc[r])
    ensures Leads(c, x, y) && OnlyReader(x, y, r) && y.d.pc[r] == NextPoint(c, x.d.pc[r], x.l.word)
    ensures Moves(c, x, y)
  {
    var d' := StepTo(c, x.d, r);
    PlainMove(c, x, d', r);
    y := x.(d := d');
  }

  /** The reader's step by what it does, without how. */
  lemma StepTo(c: D.Config, d: D.State, r: Tid) returns (d': D.State)
    requires D.ValidConfig(c) && D.Shape(c, d) && r < |d.pc| && d.pc[r].Reader? && !Checking(d.pc[r])
    ensures D.ThreadStep(c, d, d', r)
    ensures d' == d.(pc := d'.pc, rc := d'.rc, barrier := d'.barrier)
    ensures d'.pc == d.pc[r := NextPoint(c, d.pc[r], L.FREE)] && d'.pc[r] != d.pc[r]
  {
    ReaderIsStep(c, d, r);
    d' := ReaderNext(c, d, r);
  }

  // ---------- readers that writers wait for ----------

  /** How far a counted reader is from departing. */
  function ToDepart(pc: D.PC): nat {
    if !D.Counted(pc) then 0
    else match pc.rp
      case Check(free) => if free then 4 else 5
      case Lower => 3
      case Reading => 2
      case _ => 1
  }

  lemma CloserToDepart(c: D.Config, pc: D.PC, word: L.Word)
    requires D.Counted(pc)
    ensures ToDepart(NextPoint(c, pc, word)) < ToDepart(pc)
    ensures NextPoint(c, pc, word).Reader? || !D.Counted(NextPoint(c, pc, word))
  {
  }

  /** A counted reader departs: the check lets it in and its section ends, or the check sends it away. */
  lemma {:induction false} ReaderLeaves(c: D.Config, x: State, r: Tid) returns (y: State)
    requires ValidConfig(c) && Reachable(c, x) && Shape(c, x) && L.Inv(Threads(c), x.l) && Glue(c, x)
    requires r < Threads(c)
    ensures Leads(c, x, y) && OnlyReader(x, y, r) && !D.Counted(y.d.pc[r])
    decreases ToDepart(x.d.pc[r])
  {
    if !D.Counted(x.d.pc[r]) {
      y := x;
    } else {
      var z := ReaderMove(c, x, r);
      CloserToDepart(c, x.d.pc[r], x.l.word);
      y := ReaderLeaves(c, z, r);
    }
  }

  function Visitors(pc: seq<D.PC>): set<Tid> {
    set t: Tid | t < |pc| && D.Counted(pc[t])
  }

  lemma VisitorGone(pc: seq<D.PC>, pc': seq<D.PC>, r: Tid)
    requires r < |pc| == |pc'| && pc' == pc[r := pc'[r]] && D.Counted(pc[r]) && !D.Counted(pc'[r])
    ensures |Visitors(pc')| < |Visitors(pc)|
  {
    SizeWithout(Visitors(pc), Visitors(pc'), r);
  }

  /** A group with a positive counter has a counted reader. */
  lemma SomeVisitor(c: D.Config, x: State, g: nat) returns (r: Tid)
    requires ValidConfig(c) && Reachable(c, x) && Shape(c, x) && g < c.groups && x.d.rc[g] > 0
    ensures r < Threads(c) && D.Counted(x.d.pc[r])
  {
    ReachableInv(c, x);
    assert DI.Members(c, x.d.pc, g) != {};
    r :| r in DI.Members(c, x.d.pc, g);
  }

  /** Between x and y only readers have moved, and t has not. */
  ghost predicate OnlyReaders(x: State, y: State, t: Tid) {
    && t < |x.d.pc| == |y.d.pc| && y.d.pc[t] == x.d.pc[t]
    && y.l == x.l
    && y.d == x.d.(pc := y.d.pc, rc := y.d.rc, barrier := y.d.barrier)
  }

  /** The next step of a scan that finds the group it looks at empty, or has passed all of them. */
  function ScanNext(c: D.Config, d: D.State, t: Tid): D.State
    requires t < |d.pc| && d.pc[t].Own? && d.pc[t].point.Scan?
  {
    D.Goto(d, t, D.Own(d.pc[t].op, d.pc[t].helper,
                       if !c.rw || d.pc[t].point.g >= c.groups then D.Section else D.Scan(d.pc[t].point.g + 1)))
  }

  lemma ScanMove(c: D.Config, x: State, t: Tid)
    requires ValidConfig(c) && Reachable(c, x) && Shape(c, x) && t < Threads(c)
    requires x.d.pc[t].Own? && x.d.pc[t].point.Scan?
    requires c.rw && x.d.pc[t].point.g < c.groups ==> x.d.rc[x.d.pc[t].point.g] <= 0
    ensures Leads(c, x, x.(d := ScanNext(c, x.d, t)))
  {
    var d' := ScanNext(c, x.d, t);
    assert D.OwnStep(c, x.d, d', t);
    assert d'.pc[t] != x.d.pc[t];
    PlainMove(c, x, d', t);
  }

  function ToScan(c: D.Config, pc: D.PC): nat {
    if pc.Own? && pc.point.Scan? && pc.point.g < c.groups then c.groups - pc.point.g else 0
  }

  /** The scan of the readers ends, every reader it meets having departed. */
  lemma {:induction false} ScanPasses(c: D.Config, x: State, t: Tid) returns (y: State)
    requires ValidConfig(c) && Reachable(c, x) && Shape(c, x) && L.Inv(Threads(c), x.l) && Glue(c, x)
    requires t < Threads(c) && x.d.pc[t].Own? && x.d.pc[t].point.Scan?
    ensures Leads(c, x, y) && y.l == x.l
    ensures y.d.pc[t] == D.Own(x.d.pc[t].op, x.d.pc[t].helper, D.Section)
    decreases |Visitors(x.d.pc)|, ToScan(c, x.d.pc[t])
  {
    var g := x.d.pc[t].point.g;
    if c.rw && g < c.groups && x.d.rc[g] > 0 {
      var r := SomeVisitor(c, x, g);
      var z := ReaderLeaves(c, x, r);
      VisitorGone(x.d.pc, z.d.pc, r);
      y := ScanPasses(c, z, t);
    } else {
      var z := x.(d := ScanNext(c, x.d, t));
      ScanMove(c, x, t);
      if z.d.pc[t].point.Section? {
        y := z;
      } else {
        SameVisitors(x.d.pc, t, z.d.pc[t]);
        y := ScanPasses(c, z, t);
      }
    }
  }

  lemma SameVisitors(pc: seq<D.PC>, t: Tid, next: D.PC)
    requires t < |pc| && D.Counted(pc[t]) == D.Counted(next)
    ensures Visitors(pc[t := next]) == Visitors(pc)
  {
  }

  // ---------- readers that raised the barrier ----------

  /** How far a reader that raised the barrier is from lowering it, while the lock is free. */
  function ToLower(pc: D.PC): nat {
    if !D.HasRaised(pc) then 0
    else match pc.rp
      case Depart => 7
      case Spin(free) => if free then 5 else 6
      case Arrive => 4
      case Check(free) => if free then 2 else 3
      case _ => 1
  }

  lemma CloserToLower(c: D.Config, pc: D.PC)
    requires D.HasRaised(pc) && !pc.rp.Raise?
    ensures ToLower(NextPoint(c, pc, L.FREE)) < ToLower(pc)
  {
  }

  lemma RaiseFacts(c: D.Config, x: State, r: Tid)
    requires ValidConfig(c) && Reachable(c, x) && Shape(c, x) && r < Threads(c) && D.HasRaised(x.d.pc[r])
    ensures !x.d.pc[r].rp.Raise?
  {
    ReachableInv(c, x);
  }

  /** While the lock is free, a reader that raised the barrier gets in and lowers it. */
  lemma {:induction false} ReaderEnters(c: D.Config, x: State, r: Tid) returns (y: State)
    requires ValidConfig(c) && Reachable(c, x) && Shape(c, x) && L.Inv(Threads(c), x.l) && Glue(c, x)
    requires r < Threads(c) && x.l.word == L.FREE
    ensures Leads(c, x, y) && OnlyReader(x, y, r) && !D.HasRaised(y.d.pc[r])
    decreases ToLower(x.d.pc[r])
  {
    if !D.HasRaised(x.d.pc[r]) {
      y := x;
    } else {
      RaiseFacts(c, x, r);
      var z := ReaderMove(c, x, r);
      CloserToLower(c, x.d.pc[r]);
      y := ReaderEnters(c, z, r);
    }
  }

  lemma RaiserGone(pc: seq<D.PC>, pc': seq<D.PC>, r: Tid)
    requires r < |pc| == |pc'| && pc' == pc[r := pc'[r]] && D.HasRaised(pc[r]) && !D.HasRaised(pc'[r])
    ensures |DI.Raisers(pc')| < |DI.Raisers(pc)|
  {
    SizeWithout(DI.Raisers(pc), DI.Raisers(pc'), r);
  }

  lemma SomeRaiser(c: D.Config, x: State) returns (r: Tid)
    requires ValidConfig(c) && Reachable(c, x) && Shape(c, x) && x.d.barrier > 0
    ensures r < Threads(c) && D.HasRaised(x.d.pc[r])
  {
    ReachableInv(c, x);
    assert DI.Raisers(x.d.pc) != {};
    r :| r in DI.Raisers(x.d.pc);
  }

  /** While the lock is free, all readers that raised the barrier get in, and writers may go on. */
  lemma {:induction false} BarrierFalls(c: D.Config, x: State, t: Tid) returns (y: State)
    requires ValidConfig(c) && Reachable(c, x) && Shape(c, x) && L.Inv(Threads(c), x.l) && Glue(c, x)
    requires t < Threads(c) && !x.d.pc[t].Reader? && x.l.word == L.FREE
    ensures Leads(c, x, y) && OnlyReaders(x, y, t) && y.d.barrier <= 0
    decreases |DI.Raisers(x.d.pc)|
  {
    if x.d.barrier <= 0 {
      y := x;
    } else {
      var r := SomeRaiser(c, x);
      var z := ReaderEnters(c, x, r);
      RaiserGone(x.d.pc, z.d.pc, r);
      y := BarrierFalls(c, z, t);
    }
  }
}
