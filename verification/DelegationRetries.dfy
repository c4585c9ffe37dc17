/** The starvation_free policy: the retry loop of delegate is left after 511 rounds for a plain lock. */
module DelegationRetries {
  import opened Prelude
  import opened Delegation
  import opened DelegationRoles

  /** The round of the retry loop a thread is in, if it is in the loop. */
  function Round(pc: PC): Option<nat> {
    match pc
    case Calling(_, LoadCounter(retry)) => Some(retry)
    case Calling(_, Reserve(retry, _)) => Some(retry)
    case Calling(_, TryAgain(retry)) => Some(retry)
    case Padding(_, retry, _, _, _) => Some(retry)
    case _ => None
  }

  ghost predicate RoundOk(c: Config, pc: PC) {
    Round(pc).Some? ==> 1 <= Round(pc).value && (c.limited ==> Round(pc).value < RETRY_LIMIT)
  }

  ghost predicate Rounds(c: Config, s: State) {
    forall t :: 0 <= t < |s.pc| ==> RoundOk(c, s.pc[t])
  }

  lemma CallKeeps(c: Config, s: State, s': State, t: Tid)
    requires ValidConfig(c) && Shape(c, s) && t < |s.pc| && CallStep(c, s, s', t) && RoundOk(c, s.pc[t])
    ensures s'.pc == s.pc || (|s'.pc| == |s.pc| && s'.pc == s.pc[t := s'.pc[t]] && RoundOk(c, s'.pc[t]))
  {
  }

  lemma EnqueueKeeps(c: Config, s: State, s': State, t: Tid)
    requires ValidConfig(c) && Shape(c, s) && t < |s.pc| && EnqueueStep(c, s, s', t) && RoundOk(c, s.pc[t])
    ensures |s'.pc| == |s.pc| && s'.pc == s.pc[t := s'.pc[t]] && RoundOk(c, s'.pc[t])
  {
  }

  lemma FlushLeaves(c: Config, s: State, s': State, t: Tid)
    requires ValidConfig(c) && Shape(c, s) && t < |s.pc| && FlushStep(c, s, s', t)
    ensures |s'.pc| == |s.pc| && s'.pc == s.pc[t := s'.pc[t]] && Round(s'.pc[t]) == None
  {
  }

  lemma OtherKeeps(c: Config, s: State, s': State, t: Tid)
    requires ValidConfig(c) && Shape(c, s) && t < |s.pc| && ThreadStep(c, s, s', t) && !CallStep(c, s, s', t)
    requires !EnqueueStep(c, s, s', t)
    ensures |s'.pc| == |s.pc| && s'.pc == s.pc[t := s'.pc[t]] && Round(s'.pc[t]) == None
  {
    if FlushStep(c, s, s', t) {
      FlushLeaves(c, s, s', t);
    } else if OwnStep(c, s, s', t) {
    } else if GuardStep(c, s, s', t) {
    } else if ReaderStep(c, s, s', t) {
    } else {
      var req: nat, direct: bool :| StartCall(c, s, s', t, req, direct);
    }
  }

  lemma NextKeeps(c: Config, s: State, s': State)
    requires ValidConfig(c) && Shape(c, s) && Next(c, s, s') && Rounds(c, s)
    ensures Rounds(c, s')
  {
    var t: Tid :| t < |s.pc| && ThreadStep(c, s, s', t);
    if CallStep(c, s, s', t) {
      CallKeeps(c, s, s', t);
    } else if EnqueueStep(c, s, s', t) {
      EnqueueKeeps(c, s, s', t);
    } else {
      OtherKeeps(c, s, s', t);
    }
  }

  lemma {:induction false} RunKeeps(c: Config, run: seq<State>, i: nat, s: State)
    requires ValidConfig(c) && Run(c, run) && i < |run| && s == run[i]
    ensures Rounds(c, s)
  {
    if i > 0 {
      var before := run[i - 1];
      RunKeeps(c, run, i - 1, before);
      StepOf(c, run, i - 1, before, s);
      NextKeeps(c, before, s);
    }
  }

  /** Rounds are counted from 1, and under the policy no call tries more than 511 times. */
  lemma RetriesBounded(c: Config, s: State, t: Tid)
    requires ValidConfig(c) && Reachable(c, s) && t < |s.pc| && Round(s.pc[t]).Some?
    ensures 1 <= Round(s.pc[t]).value
    ensures c.limited ==> Round(s.pc[t]).value < RETRY_LIMIT
  {
    var run :| Run(c, run) && run[|run| - 1] == s;
    RunKeeps(c, run, |run| - 1, s);
    assert RoundOk(c, s.pc[t]);
  }

  // ---------- no round is left out ----------

  /** The round a call has got to; a delegated call that locks like a plain one is past all of them. */
  function Level(s: State, t: Tid): Option<nat>
    requires t < |s.pc|
  {
    var pc := s.pc[t];
    if pc.Calling? && pc.at.LockSlow? then
      if pc.op < |s.ops| && !s.ops[pc.op].direct then Some(RETRY_LIMIT) else None
    else Round(pc)
  }

  /** At moment k thread t is about to try the lock in this round of the call. */
  ghost predicate TriesAt(run: seq<State>, k: nat, t: Tid, op: OpId, round: nat)
    requires k < |run|
  {
    t < |run[k].pc| && run[k].pc[t] == Calling(op, TryAgain(round))
  }

  ghost predicate TriedBefore(run: seq<State>, j: nat, t: Tid, op: OpId, round: nat)
    requires j <= |run|
  {
    exists k: nat :: k < j && TriesAt(run, k, t, op, round)
  }

  ghost predicate TriedAll(run: seq<State>, j: nat, t: Tid, op: OpId, level: nat)
    requires j <= |run|
  {
    forall round: nat :: 1 <= round < level ==> TriedBefore(run, j, t, op, round)
  }

  /**
   * A call comes to a level from the same level, from outside the loop to the first, or by a refusal of the
   * round before.
   */
  lemma LevelSteps(c: Config, s: State, s': State, t: Tid)
    requires ValidConfig(c) && Shape(c, s) && t < |s.pc| && ThreadStep(c, s, s', t) && Kinds(c, s) && Rounds(c, s)
    requires t < |s'.pc| && Level(s', t).Some?
    ensures HasCall(s.pc[t]) && s'.pc[t].op == s.pc[t].op
    ensures Level(s, t) == Level(s', t) || Level(s', t) == Some(1)
      || (Level(s', t).value > 1 && s.pc[t] == Calling(s'.pc[t].op, TryAgain(Level(s', t).value - 1)))
  {
    assert PointOk(c, s, t) && RoundOk(c, s.pc[t]);
    if CallStep(c, s, s', t) {
    } else if EnqueueStep(c, s, s', t) {
      LevelInEnqueue(c, s, s', t);
    } else {
      OtherKeeps(c, s, s', t);
      NoLevel(c, s, s', t);
    }
  }

  lemma LevelInEnqueue(c: Config, s: State, s': State, t: Tid)
    requires ValidConfig(c) && Shape(c, s) && t < |s.pc| && EnqueueStep(c, s, s', t)
    requires t < |s'.pc| && Level(s', t).Some?
    ensures HasCall(s.pc[t]) && s'.pc[t].op == s.pc[t].op && Level(s, t) == Level(s', t)
  {
  }

  lemma NoLevel(c: Config, s: State, s': State, t: Tid)
    requires ValidConfig(c) && Shape(c, s) && t < |s.pc| && ThreadStep(c, s, s', t)
    requires !CallStep(c, s, s', t) && !EnqueueStep(c, s, s', t)
    requires t < |s'.pc| && Round(s'.pc[t]) == None
    ensures Level(s', t) == None
  {
    if FlushStep(c, s, s', t) {
      FlushPoints(c, s, s', t);
    } else if OwnStep(c, s, s', t) {
    } else if GuardStep(c, s, s', t) {
    } else if ReaderStep(c, s, s', t) {
    } else {
      var req: nat, direct: bool :| StartCall(c, s, s', t, req, direct);
    }
  }

  lemma TriedLonger(run: seq<State>, i: nat, j: nat, t: Tid, op: OpId, level: nat)
    requires i <= j <= |run| && TriedAll(run, i, t, op, level)
    ensures TriedAll(run, j, t, op, level)
  {
    forall round: nat | 1 <= round < level ensures TriedBefore(run, j, t, op, round) {
      assert TriedBefore(run, i, t, op, round);
      var k: nat :| k < i && TriesAt(run, k, t, op, round);
    }
  }

  /** In every run a call that is in round r has tried the lock in every round before. */
  lemma {:induction false} TriedEveryRound(c: Config, run: seq<State>, j: nat, s: State, t: Tid)
    requires ValidConfig(c) && Run(c, run) && j < |run| && s == run[j] && t < |s.pc| && Level(s, t).Some?
    ensures TriedAll(run, j, t, s.pc[t].op, Level(s, t).value)
    decreases j
  {
    if j > 0 {
      var w := run[j - 1];
      StepOf(c, run, j - 1, w, s);
      RunKeepsKinds(c, run, j - 1, w);
      RunKeeps(c, run, j - 1, w);
      var same := NextLevel(c, w, s, t);
      if same {
        TriedEveryRound(c, run, j - 1, w, t);
        TriedLonger(run, j - 1, j, t, s.pc[t].op, Level(s, t).value);
      } else if Level(s, t).value > 1 {
        TriedEveryRound(c, run, j - 1, w, t);
        TriedLonger(run, j - 1, j, t, s.pc[t].op, Level(w, t).value);
        assert TriesAt(run, j - 1, t, s.pc[t].op, Level(s, t).value - 1);
        TriedOneMore(run, j, t, s.pc[t].op, Level(s, t).value - 1);
      }
    }
  }

  lemma TriedOneMore(run: seq<State>, j: nat, t: Tid, op: OpId, level: nat)
    requires 0 < j <= |run| && TriedAll(run, j, t, op, level) && TriesAt(run, j - 1, t, op, level)
    ensures TriedAll(run, j, t, op, level + 1)
  {
    forall round: nat | 1 <= round < level + 1 ensures TriedBefore(run, j, t, op, round) {
      if round == level {
        assert TriesAt(run, j - 1, t, op, round);
      }
    }
  }

  lemma NextLevel(c: Config, s: State, s': State, t: Tid) returns (same: bool)
    requires ValidConfig(c) && Shape(c, s) && Next(c, s, s') && Kinds(c, s) && Rounds(c, s)
    requires t < |s'.pc| && Level(s', t).Some?
    ensures t < |s.pc|
    ensures same ==> HasCall(s.pc[t]) && s.pc[t].op == s'.pc[t].op && Level(s, t) == Level(s', t)
    ensures !same && Level(s', t).value > 1 ==> s.pc[t] == Calling(s'.pc[t].op, TryAgain(Level(s', t).value - 1))
    ensures Level(s', t).value >= 1 || same
  {
    var u: Tid :| u < |s.pc| && ThreadStep(c, s, s', u);
    OnlyMover(c, s, s', u);
    if u == t {
      LevelSteps(c, s, s', t);
      same := Level(s, t) == Level(s', t);
    } else {
      KindsStay(c, s, s', u, t);
      same := true;
    }
  }

  lemma KindsStay(c: Config, s: State, s': State, u: Tid, t: Tid)
    requires ValidConfig(c) && Shape(c, s) && u < |s.pc| && t < |s.pc| && u != t && ThreadStep(c, s, s', u)
    requires Kinds(c, s)
    requires t < |s'.pc| && s'.pc[t] == s.pc[t] && Level(s', t).Some?
    ensures HasCall(s.pc[t]) && Level(s, t) == Level(s', t)
  {
    assert PointOk(c, s, t);
    DirectStays(c, s, s', u);
  }

  lemma DirectStays(c: Config, s: State, s': State, u: Tid)
    requires ValidConfig(c) && Shape(c, s) && u < |s.pc| && ThreadStep(c, s, s', u)
    ensures SameKinds(s.ops, s'.ops)
  {
    if FlushStep(c, s, s', u) {
      FlushPoints(c, s, s', u);
    } else if EnqueueStep(c, s, s', u) {
    } else if OwnStep(c, s, s', u) {
    } else if GuardStep(c, s, s', u) {
    } else if ReaderStep(c, s, s', u) {
    } else if CallStep(c, s, s', u) {
    } else {
    }
  }

  /** So a delegated call falls back to plain locking only after it has tried in all 511 rounds. */
  lemma FallsBackLate(c: Config, run: seq<State>, j: nat, t: Tid, round: nat)
    requires ValidConfig(c) && Run(c, run) && j < |run| && t < |run[j].pc| && 1 <= round < RETRY_LIMIT
    requires run[j].pc[t].Calling? && run[j].pc[t].at.LockSlow?
    requires run[j].pc[t].op < |run[j].ops| && !run[j].ops[run[j].pc[t].op].direct
    ensures TriedBefore(run, j, t, run[j].pc[t].op, round)
  {
    TriedEveryRound(c, run, j, run[j], t);
  }

  /**
   * Every refusal takes a call one round further: from the first attempt into round 1, from round r into round
   * r + 1.
   */
  lemma RefusalAdvances(c: Config, s: State, s': State, t: Tid)
    requires ValidConfig(c) && Reachable(c, s) && t < |s.pc| && ThreadStep(c, s, s', t) && t < |s'.pc|
    requires s.pc[t].Calling? && (s.pc[t].at.TryFirst? || s.pc[t].at.TryAgain?) && !HoldsMutex(s'.pc[t])
    ensures s'.pc[t].Calling? && s'.pc[t].op == s.pc[t].op && (s'.pc[t].at.LoadCounter? || s'.pc[t].at.LockSlow?)
    ensures Level(s', t) == Some(if s.pc[t].at.TryFirst? then 1 else s.pc[t].at.retry + 1)
  {
    var run :| Run(c, run) && run[|run| - 1] == s;
    RunKeepsKinds(c, run, |run| - 1, s);
    RunKeeps(c, run, |run| - 1, s);
    assert PointOk(c, s, t) && RoundOk(c, s.pc[t]);
    Refused(c, s, s', t);
  }

  lemma Refused(c: Config, s: State, s': State, t: Tid)
    requires ValidConfig(c) && Shape(c, s) && t < |s.pc| && ThreadStep(c, s, s', t) && t < |s'.pc|
    requires s.pc[t].Calling? && (s.pc[t].at.TryFirst? || s.pc[t].at.TryAgain?) && !HoldsMutex(s'.pc[t])
    requires HasCall(s.pc[t]) && s.pc[t].op < |s.ops| && !s.ops[s.pc[t].op].direct && RoundOk(c, s.pc[t])
    ensures s'.pc[t].Calling? && s'.pc[t].op == s.pc[t].op && (s'.pc[t].at.LoadCounter? || s'.pc[t].at.LockSlow?)
    ensures Level(s', t) == Some(if s.pc[t].at.TryFirst? then 1 else s.pc[t].at.retry + 1)
  {
    assert CallStep(c, s, s', t);
  }
}
