/**
 * The abstract tantrum queue: open or closed, with the accepted operations that have not
 * been executed yet. An enqueue appends or has no effect, a flush takes from the front.
 */
module TantrumSpec {

  datatype Tantrum<T> = Tantrum(open: bool, pending: seq<T>)

  datatype Event<T> = Silent | Opened | Accepted(op: T) | Taken(op: T) | Shut

  ghost predicate StepBy<T>(a: Tantrum<T>, e: Event<T>, a': Tantrum<T>) {
    match e
    case Silent => a' == a
    case Opened => !a.open && a.pending == [] && a' == Tantrum(true, [])
    case Accepted(op) => a.open && a' == a.(pending := a.pending + [op])
    case Taken(op) => |a.pending| > 0 && op == a.pending[0] && a' == a.(pending := a.pending[1..])
    case Shut => a.open && a' == a.(open := false)
  }

  /** The states of a queue and the events between them. */
  ghost predicate Trace<T(!new)>(states: seq<Tantrum<T>>, events: seq<Event<T>>) {
    && |states| == |events| + 1
    && states[0] == Tantrum(false, [])
    && forall i :: 0 <= i < |events| ==> StepBy(states[i], events[i], states[i + 1])
  }

  function AcceptedOf<T>(events: seq<Event<T>>): seq<T> {
    if events == [] then []
    else
      var e := events[|events| - 1];
      AcceptedOf(events[..|events| - 1]) + if e.Accepted? then [e.op] else []
  }

  function TakenOf<T>(events: seq<Event<T>>): seq<T> {
    if events == [] then []
    else
      var e := events[|events| - 1];
      TakenOf(events[..|events| - 1]) + if e.Taken? then [e.op] else []
  }

  /** Nothing is lost, duplicated or reordered: what was taken, then what is pending, is what was accepted. */
  lemma {:induction false} FirstInFirstOut<T(!new)>(states: seq<Tantrum<T>>, events: seq<Event<T>>)
    requires Trace(states, events)
    ensures TakenOf(events) + states[|events|].pending == AcceptedOf(events)
  {
    var n := |events|;
    if n > 0 {
      var before := events[..n - 1];
      assert Trace(states[..n], before);
      FirstInFirstOut(states[..n], before);
      var a, a' := states[n - 1], states[n];
      assert StepBy(a, events[n - 1], states[n - 1 + 1]);
      if events[n - 1].Taken? {
        assert a.pending == [a.pending[0]] + a'.pending;
      }
    }
  }

  /** Between two periods everything accepted so far has been taken. */
  lemma OpensEmpty<T(!new)>(states: seq<Tantrum<T>>, events: seq<Event<T>>, i: nat)
    requires Trace(states, events) && i < |events| && events[i].Opened?
    ensures TakenOf(events[..i]) == AcceptedOf(events[..i])
  {
    assert StepBy(states[i], events[i], states[i + 1]);
    assert Trace(states[..i + 1], events[..i]);
    FirstInFirstOut(states[..i + 1], events[..i]);
  }
}
