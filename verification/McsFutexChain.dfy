/** Every step of mcs_futex_lock keeps the chain of waiting threads. */
module McsFutexChain {
  import opened Prelude
  import opened McsFutexLock

  /** t moves without entering or leaving the chain, and may set its own field or the flag. */
  lemma ChainLocal(threads: nat, s: State, s': State, t: Tid)
    requires Shape(threads, s) && Shape(threads, s') && t < threads && Chain(threads, s)
    requires s'.pc == s.pc[t := s'.pc[t]] && Member(s'.pc[t]) == Member(s.pc[t])
    requires Linked(s'.pc[t]) == Linked(s.pc[t]) || s.slot[t] == s.left
    requires s'.nodes == s.nodes[t := s'.nodes[t]]
    requires s'.joined == s.joined && s'.left == s.left && s'.slot == s.slot
    requires s'.word.ptr == s.word.ptr && (s.word.flag ==> s'.word.flag) && (s'.word.flag ==> s'.word.ptr.Some?)
    requires if Member(s.pc[t]) then s'.nodes[t].next == s.nodes[t].next else Done(s'.pc[t]) || s'.nodes[t].next == None
    requires At(s', t, s'.pc[t])
    ensures Chain(threads, s')
  {
    forall i | s'.left <= i < |s'.joined| ensures PlaceOk(threads, s', i) {
      assert PlaceOk(threads, s, i);
    }
    forall u | 0 <= u < threads ensures ThreadOk(threads, s', u) {
      assert ThreadOk(threads, s, u);
      if Member(s.pc[u]) && s.slot[u] + 1 < |s.joined| {
        assert PlaceOk(threads, s, s.slot[u] + 1);
      }
    }
  }

  /** A successful CAS appends t to the chain. */
  lemma ChainJoined(threads: nat, s: State, s': State, t: Tid)
    requires Shape(threads, s) && Shape(threads, s') && t < threads && Chain(threads, s)
    requires !Member(s.pc[t]) && !Done(s.pc[t]) && Member(s'.pc[t]) && !Linked(s'.pc[t])
    requires s'.pc == s.pc[t := s'.pc[t]] && s'.nodes == s.nodes && s'.left == s.left
    requires s'.joined == s.joined + [t] && s'.slot == s.slot[t := |s.joined|]
    requires s'.word == Word(Some(t), s.word.flag)
    requires At(s', t, s'.pc[t])
    ensures Chain(threads, s')
  {
    forall i | s'.left <= i < |s'.joined| ensures PlaceOk(threads, s', i) {
      if i < |s.joined| {
        assert PlaceOk(threads, s, i);
      }
    }
    forall u | 0 <= u < threads ensures ThreadOk(threads, s', u) {
      assert ThreadOk(threads, s, u);
      if u != t && Member(s.pc[u]) && s.slot[u] + 1 < |s.joined| {
        assert PlaceOk(threads, s, s.slot[u] + 1);
      }
    }
  }

  /** t stores the link in its predecessor. */
  lemma ChainLinked(threads: nat, s: State, t: Tid, found: Tid)
    requires Shape(threads, s) && t < threads && found < threads && Chain(threads, s)
    requires s.pc[t] == Lock(Link(found))
    ensures Chain(threads, Goto(SetNext(s, found, Some(t)), t, Lock(Wait(Poll(0)))))
  {
    var s' := Goto(SetNext(s, found, Some(t)), t, Lock(Wait(Poll(0))));
    assert ThreadOk(threads, s, t) && PlaceOk(threads, s, s.slot[t] - 1);
    forall i | s'.left <= i < |s'.joined| ensures PlaceOk(threads, s', i) {
      assert PlaceOk(threads, s, i);
    }
    forall u | 0 <= u < threads ensures ThreadOk(threads, s', u) {
      assert ThreadOk(threads, s, u);
      if Member(s.pc[u]) && s.slot[u] + 1 < |s.joined| {
        assert PlaceOk(threads, s, s.slot[u] + 1);
      }
    }
  }

  /** The only member frees the word. */
  lemma ChainFreed(threads: nat, s: State, s': State, t: Tid)
    requires Shape(threads, s) && Shape(threads, s') && t < threads && Chain(threads, s)
    requires s.pc[t].Unlock? && s.pc[t].up.CasFree? && s.word.ptr == Some(t)
    requires s'.pc == s.pc[t := s'.pc[t]] && (s'.pc[t] == Out || s'.pc[t] == Unlock(NotifyAll))
    requires s'.nodes == s.nodes && s'.joined == s.joined && s'.slot == s.slot && s'.left == s.left + 1
    requires s'.word == FREE
    ensures Chain(threads, s') && s'.left == |s'.joined|
  {
    assert ThreadOk(threads, s, t) && PlaceOk(threads, s, |s.joined| - 1);
    forall u | 0 <= u < threads ensures ThreadOk(threads, s', u) {
      assert ThreadOk(threads, s, u);
    }
  }

  /** The head hands over to the next node. */
  lemma ChainHanded(threads: nat, s: State, s': State, t: Tid, n: Tid)
    requires Shape(threads, s) && Shape(threads, s') && t < threads && n < threads && Chain(threads, s)
    requires s.pc[t] == Unlock(HandOver(n))
    requires s'.pc == s.pc[t := s'.pc[t]] && Done(s'.pc[t])
    requires s'.nodes == s.nodes[n := s.nodes[n].(field := Free)]
    requires s'.joined == s.joined && s'.slot == s.slot && s'.left == s.left + 1 && s'.word == s.word
    ensures Chain(threads, s')
    ensures s'.left < |s'.joined| && s'.joined[s'.left] == n && Linked(s.pc[n]) && n != t
  {
    assert ThreadOk(threads, s, t);
    assert s.left + 1 < |s.joined|;
    assert PlaceOk(threads, s, s.left + 1);
    forall i | s'.left <= i < |s'.joined| ensures PlaceOk(threads, s', i) {
      assert PlaceOk(threads, s, i);
    }
    forall u | 0 <= u < threads ensures ThreadOk(threads, s', u) {
      HandedOther(threads, s, s', t, n, u);
    }
  }

  lemma HandedOther(threads: nat, s: State, s': State, t: Tid, n: Tid, u: Tid)
    requires Shape(threads, s) && Shape(threads, s') && t < threads && n < threads && u < threads && Chain(threads, s)
    requires s.pc[t] == Unlock(HandOver(n)) && s.slot[t] == s.left < |s.joined| && s.joined[s.left] == t
    requires s.left + 1 < |s.joined| && s.joined[s.left + 1] == n && Linked(s.pc[n]) && s.slot[n] == s.left + 1
    requires s'.pc == s.pc[t := s'.pc[t]] && Done(s'.pc[t])
    requires s'.nodes == s.nodes[n := s.nodes[n].(field := Free)]
    requires s'.joined == s.joined && s'.slot == s.slot && s'.left == s.left + 1 && s'.word == s.word
    ensures ThreadOk(threads, s', u)
  {
    assert ThreadOk(threads, s, u);
    if Member(s.pc[u]) && s.slot[u] + 1 < |s.joined| {
      assert PlaceOk(threads, s, s.slot[u] + 1);
    }
    if Member(s.pc[u]) && s.slot[u] == s.left {
      assert u == t;
    }
  }

  /** Waking sleepers moves them inside their waiting loops only. */
  lemma ChainWoken(threads: nat, s: State, s': State)
    requires Shape(threads, s) && Shape(threads, s') && Chain(threads, s)
    requires s' == s.(pc := s'.pc)
    requires forall u :: 0 <= u < threads ==> s'.pc[u] == s.pc[u] || IsWake(s.pc[u], s'.pc[u])
    ensures Chain(threads, s')
  {
    forall i | s'.left <= i < |s'.joined| ensures PlaceOk(threads, s', i) {
      assert PlaceOk(threads, s, i);
    }
    forall u | 0 <= u < threads ensures ThreadOk(threads, s', u) {
      assert ThreadOk(threads, s, u);
      if Member(s.pc[u]) && s.slot[u] + 1 < |s.joined| {
        assert PlaceOk(threads, s, s.slot[u] + 1);
      }
    }
  }

  predicate IsWake(pc: PC, pc': PC) {
    || (pc == Try(AsleepWord) && pc' == Try(Woken))
    || (pc == Lock(Wait(Asleep)) && pc' == Lock(Wait(Test)))
  }
}
