/**
 * reader_groups: readers are counted in groups, and query scans the counters one after the
 * other while readers come and go.
 */
module ReaderGroups {
  import opened Prelude

  /** An arrival or a departure: one counter changes by one. */
  ghost predicate Moved(a: seq<int>, b: seq<int>, g: nat) {
    |a| == |b| && g < |a| && (b == a[g := a[g] + 1] || b == a[g := a[g] - 1])
  }

  ghost predicate Access(a: seq<int>, b: seq<int>) {
    exists g: nat :: Moved(a, b, g)
  }

  ghost predicate StepAt(history: seq<seq<int>>, i: nat)
    requires i + 1 < |history|
  {
    Access(history[i], history[i + 1])
  }

  /** The counters after each access, one access at a time. */
  ghost predicate Stepwise(history: seq<seq<int>>) {
    forall i :: 0 <= i < |history| - 1 ==> StepAt(history, i)
  }

  /**
   * A scan that began at moment from has read counter g at moment scan[g], one after the other, and found all
   * of them empty.
   */
  ghost predicate FoundEmpty(history: seq<seq<int>>, from: nat, scan: seq<nat>) {
    && (forall g :: 0 <= g < |scan| ==> from <= scan[g] < |history| && EmptyAt(history[scan[g]], g))
    && (forall g, h :: 0 <= g < h < |scan| ==> scan[g] <= scan[h])
  }

  ghost predicate EmptyAt(counters: seq<int>, g: nat) {
    g < |counters| && counters[g] <= 0
  }

  /** An arrival or a departure of a thread. */
  datatype Event = Arrived(threadId: nat) | Departed(threadId: nat)

  function Sign(e: Event): int {
    if e.Arrived? then 1 else -1
  }

  /** The arrivals less the departures of the threads of group g. */
  function Net(events: seq<Event>, groups: nat, g: nat): int
    requires groups > 0
  {
    if events == [] then 0
    else
      var e := events[|events| - 1];
      Net(events[..|events| - 1], groups, g) + if e.threadId % groups == g then Sign(e) else 0
  }

  ghost predicate Counts(counters: seq<int>, events: seq<Event>)
    requires |counters| > 0
  {
    forall g :: 0 <= g < |counters| ==> counters[g] == Net(events, |counters|, g)
  }

  lemma CountsOneMore(counters: seq<int>, counters': seq<int>, events: seq<Event>, e: Event)
    requires |counters| > 0 && Counts(counters, events)
    requires counters' == counters[e.threadId % |counters| := counters[e.threadId % |counters|] + Sign(e)]
    ensures Counts(counters', events + [e])
  {
    assert (events + [e])[..|events + [e]| - 1] == events;
  }

  ghost predicate SomeReader(counters: seq<int>) {
    exists g :: 0 <= g < |counters| && counters[g] > 0
  }

  class Indicator {
    const counters: array<int>

    /** History: what has happened, and the values of the counters after each access. */
    ghost var events: seq<Event>
    ghost var history: seq<seq<int>>

    ghost predicate Valid()
      reads this, counters
    {
      && counters.Length > 0 && |history| > 0 && history[|history| - 1] == counters[..] && Stepwise(history)
      && Counts(counters[..], events) && |history| == |events| + 1
    }

    constructor (groups: nat)
      requires groups > 0
      ensures Valid() && fresh(counters) && counters.Length == groups
      ensures forall g :: 0 <= g < groups ==> counters[g] == 0
      ensures events == []
    {
      counters := new int[groups](_ => 0);
      new;
      events, history := [], [counters[..]];
    }

    method Add(threadId: nat, n: int, ghost e: Event)
      requires Valid() && n == Sign(e) && e.threadId == threadId
      modifies this, counters
      ensures Valid() && events == old(events) + [e] && history == old(history) + [counters[..]]
      ensures counters[threadId % counters.Length] == old(counters[threadId % counters.Length]) + n
      ensures forall g :: 0 <= g < counters.Length && g != threadId % counters.Length ==>
        counters[g] == old(counters[g])
    {
      var g := threadId % counters.Length;
      ghost var before := counters[..];
      counters[g] := counters[g] + n;
      assert Moved(before, counters[..], g);
      StepwiseExtended(history, counters[..], g);
      CountsOneMore(before, counters[..], events, e);
      events, history := events + [e], history + [counters[..]];
    }

    /** arrive: the reader's group counts one more, the others the same. */
    method Arrive(threadId: nat)
      requires Valid()
      modifies this, counters
      ensures Valid() && events == old(events) + [Arrived(threadId)] && history == old(history) + [counters[..]]
      ensures counters[threadId % counters.Length] == old(counters[threadId % counters.Length]) + 1
      ensures forall g :: 0 <= g < counters.Length && g != threadId % counters.Length ==>
        counters[g] == old(counters[g])
    {
      Add(threadId, 1, Arrived(threadId));
    }

    /** depart undoes arrive. */
    method Depart(threadId: nat)
      requires Valid()
      modifies this, counters
      ensures Valid() && events == old(events) + [Departed(threadId)] && history == old(history) + [counters[..]]
      ensures counters[threadId % counters.Length] == old(counters[threadId % counters.Length]) - 1
      ensures forall g :: 0 <= g < counters.Length && g != threadId % counters.Length ==>
        counters[g] == old(counters[g])
    {
      Add(threadId, -1, Departed(threadId));
    }

    /** Other threads arrive and depart. */
    method Others()
      requires Valid()
      modifies this, counters
      ensures Valid() && old(history) <= history && old(events) <= events
    {
      var n: nat := *;
      while n > 0
        invariant Valid() && old(history) <= history && old(events) <= events
      {
        var threadId: nat := *;
        var arrive: bool := *;
        if arrive {
          Arrive(threadId);
        } else {
          Depart(threadId);
        }
        n := n - 1;
      }
    }

    /**
     * query is not atomic: its answer false means that every group was found empty at some moment of
     * the scan, in the order of the groups, not all at one moment; its answer true that some reader was there.
     */
    method Query() returns (busy: bool, ghost scan: seq<nat>)
      requires Valid()
      modifies this, counters
      ensures Valid() && old(history) <= history && old(events) <= events
      ensures busy ==> exists i :: |old(history)| - 1 <= i < |history| && SomeReader(history[i])
      ensures !busy ==> |scan| == counters.Length && FoundEmpty(history, |old(history)| - 1, scan)
      ensures events == old(events) ==> (busy <==> SomeReader(counters[..]))
    {
      var g := 0;
      scan := [];
      while g < counters.Length
        invariant 0 <= g == |scan| <= counters.Length && Valid() && old(history) <= history && old(events) <= events
        invariant FoundEmpty(history, |old(history)| - 1, scan)
      {
        Others();
        if counters[g] > 0 {
          assert SomeReader(history[|history| - 1]);
          return true, scan;
        }
        assert EmptyAt(history[|history| - 1], g);
        scan := scan + [|history| - 1];
        g := g + 1;
      }
      busy := false;
      if events == old(events) {
        QuietScan(history, scan);
      }
    }
  }

  /** If nothing happens during a scan it is a snapshot. */
  lemma QuietScan(history: seq<seq<int>>, scan: seq<nat>)
    requires |history| > 0 && |scan| == |history[|history| - 1]| && FoundEmpty(history, |history| - 1, scan)
    ensures !SomeReader(history[|history| - 1])
  {
    var last := history[|history| - 1];
    forall g | 0 <= g < |scan| ensures last[g] <= 0 {
      assert EmptyAt(history[scan[g]], g);
    }
  }

  /** How much more often a thread has arrived than departed: one while it is inside, otherwise zero. */
  function Visits(events: seq<Event>, threadId: nat): int {
    if events == [] then 0
    else
      var e := events[|events| - 1];
      Visits(events[..|events| - 1], threadId) + if e.threadId == threadId then Sign(e) else 0
  }

  /** A group's count is the sum over its threads of how often each has arrived without departing. */
  lemma {:induction false} GroupCountsVisitors(events: seq<Event>, groups: nat, g: nat, threads: nat)
    requires groups > 0 && (forall i :: 0 <= i < |events| ==> events[i].threadId < threads)
    ensures Net(events, groups, g) == SumVisits(events, groups, g, threads)
  {
    if events == [] {
      NoVisits(groups, g, threads);
    } else {
      GroupCountsVisitors(events[..|events| - 1], groups, g, threads);
      OneMoreVisit(events, groups, g, threads);
    }
  }

  /** The visits of the first threads that belong to group g. */
  function SumVisits(events: seq<Event>, groups: nat, g: nat, threads: nat): int
    requires groups > 0
  {
    if threads == 0 then 0
    else
      SumVisits(events, groups, g, threads - 1)
      + if (threads - 1) % groups == g then Visits(events, threads - 1) else 0
  }

  lemma {:induction false} NoVisits(groups: nat, g: nat, threads: nat)
    requires groups > 0
    ensures SumVisits([], groups, g, threads) == 0
  {
    if threads > 0 {
      NoVisits(groups, g, threads - 1);
    }
  }

  lemma {:induction false} OneMoreVisit(events: seq<Event>, groups: nat, g: nat, threads: nat)
    requires groups > 0 && |events| > 0
    ensures
      var e := events[|events| - 1];
      SumVisits(events, groups, g, threads)
        == SumVisits(events[..|events| - 1], groups, g, threads)
           + if e.threadId < threads && e.threadId % groups == g then Sign(e) else 0
  {
    if threads > 0 {
      OneMoreVisit(events, groups, g, threads - 1);
    }
  }

  lemma StepwiseExtended(history: seq<seq<int>>, next: seq<int>, g: nat)
    requires Stepwise(history) && |history| > 0 && Moved(history[|history| - 1], next, g)
    ensures Stepwise(history + [next])
  {
    var longer := history + [next];
    forall i | 0 <= i < |longer| - 1 ensures StepAt(longer, i) {
      if i < |history| - 1 {
        assert StepAt(history, i) && longer[i] == history[i] && longer[i + 1] == history[i + 1];
      } else {
        assert Moved(history[|history| - 1], next, g) && longer[i + 1] == next;
      }
    }
  }

  /** Readers can come and go so that a scan finds every group empty although at no moment there was no reader. */
  ghost predicate Misses(groups: nat) {
    exists history: seq<seq<int>>, scan: seq<nat> :: Missed(groups, history, scan)
  }

  ghost predicate Missed(groups: nat, history: seq<seq<int>>, scan: seq<nat>) {
    && Stepwise(history) && |scan| == groups && FoundEmpty(history, 0, scan)
    && (forall i :: 0 <= i < |history| ==> |history[i]| == groups && SomeReader(history[i]))
  }

  /**
   * What an answer "no reader" means: that there was a moment without readers, exactly if there is one group
   * only. With more the exclusion of the locks cannot rest on the scan alone.
   */
  lemma MissesExactly(groups: nat)
    requires groups > 0
    ensures Misses(groups) <==> groups >= 2
  {
    if groups >= 2 {
      var history, scan := ScanIsNotASnapshot(groups);
      assert Missed(groups, history, scan);
    } else {
      forall history: seq<seq<int>>, scan: seq<nat> ensures !Missed(groups, history, scan) {
        if |scan| == 1 && FoundEmpty(history, 0, scan) && |history[scan[0]]| == 1 {
          NoReaderThen(history, scan);
        }
      }
    }
  }

  /** With one group the moment of the read is a moment without readers. */
  lemma NoReaderThen(history: seq<seq<int>>, scan: seq<nat>)
    requires |scan| == 1 && FoundEmpty(history, 0, scan) && |history[scan[0]]| == 1
    ensures !SomeReader(history[scan[0]])
  {
    assert EmptyAt(history[scan[0]], 0);
  }

  /** The history for two groups or more, in which no counter is ever negative. */
  lemma ScanIsNotASnapshot(groups: nat) returns (history: seq<seq<int>>, scan: seq<nat>)
    requires groups >= 2
    ensures Stepwise(history) && |scan| == groups && FoundEmpty(history, 0, scan)
    ensures forall i :: 0 <= i < |history| ==> |history[i]| == groups && SomeReader(history[i])
    ensures forall i, g :: 0 <= i < |history| && 0 <= g < |history[i]| ==> history[i][g] >= 0
  {
    var none := seq(groups, _ => 0);
    var second, both, first := none[1 := 1], none[0 := 1][1 := 1], none[0 := 1];
    history := [second, both, first];
    scan := seq(groups, g => if g == 0 then 0 else 2);
    assert both == second[0 := second[0] + 1] && first == both[1 := both[1] - 1];
    assert Moved(history[0], history[1], 0) && Moved(history[1], history[2], 1);
    assert StepAt(history, 0) && StepAt(history, 1);
    assert second[1] > 0 && both[0] > 0 && first[0] > 0;
    forall g | 0 <= g < groups ensures EmptyAt(history[scan[g]], g) {
    }
  }
}
