/**
 * dual_buffer_queue as the program has it: a counter, an array of function pointers and an
 * array of bytes, all updated in place. The ghost fields tie every statement to one atomic
 * access of TantrumQueue.
 *
 * Other threads may complete any number of enqueues at the marked points, so flush really
 * chases a moving counter here; enqueues that are interrupted half way are the subject of
 * the protocol model.
 */
module DualBufferQueue {
  import opened Prelude
  import opened Marshalling
  import opened EntryLayout
  import Q = TantrumQueue

  datatype Status = Success | Full | Closed

  class Queue {
    const slots: nat
    const slotSize: nat
    const cas: bool
    var counter: nat
    const entries: array<Fn>
    const buffer: array<Byte>

    /** History: the reservations of the period, and the calls it has accepted. */
    ghost var q: Q.Queue
    ghost var accepted: seq<Call>

    /** A slot is large enough for the size field of a padding entry, which may be all it holds. */
    ghost predicate Valid()
      reads this, entries, buffer
    {
      && 1 <= slots < 0x1_0000_0000 && HEADER <= slotSize
      && entries.Length == slots && buffer.Length == slots * slotSize
      && q.counter == counter
      && Rep(slots, slotSize, entries[..], buffer[..], q, accepted)
    }

    /** A queue starts closed, its slots null. */
    constructor (slots: nat, slotSize: nat, cas: bool)
      requires 1 <= slots < 0x1_0000_0000 && HEADER <= slotSize
      ensures Valid() && Q.Quiet(q) && fresh(entries) && fresh(buffer)
      ensures this.slots == slots && this.slotSize == slotSize
    {
      this.slots, this.slotSize, this.cas := slots, slotSize, cas;
      counter := slots;
      var pointers := new Fn[slots](_ => Null);
      var bytes := new Byte[slots * slotSize](_ => 0);
      entries, buffer := pointers, bytes;
      var cells := seq(slots, _ => Q.Cell(0, 0));
      q, accepted := Q.New(slots, cells), [];
      new;
      Q.NewIsQuiet(slots, cells);
    }

    /** open: only the counter changes. */
    method Open()
      requires Valid() && Q.Quiet(q)
      modifies this`counter, this`q, this`accepted
      ensures Valid() && q == Q.Open(old(q)) && accepted == []
    {
      OpenRep(slots, slotSize, entries[..], buffer[..], q, accepted);
      counter := 0;
      q, accepted := Q.Open(q), [];
    }

    /** From the addition to the counter on: the call is stored, or the gap at the end padded. */
    method Claim(call: Call) returns (status: Status)
      requires Valid() && Slots(slotSize, call) <= slots
      modifies this`counter, this`q, this`accepted, entries, buffer
      ensures Valid() && counter == old(counter) + Slots(slotSize, call)
      ensures Appended(slots, old(q), q, Slots(slotSize, call), |old(accepted)|)
      ensures status == if old(counter) + Slots(slotSize, call) <= slots then Success else Full
      ensures accepted == if status == Success then old(accepted) + [call] else old(accepted)
    {
      var req := ReqEntries(slotSize, |Concat(call.args + [call.promise])|);
      ghost var q' := ClaimRep(slots, slotSize, entries[..], buffer[..], q, accepted, call);
      var index := counter;
      counter := index + req;
      q := q';
      if index <= slots - req {
        StoreEntry(index, req, call.args + [call.promise], WrapperOf(call));
        accepted := accepted + [call];
        status := Success;
      } else {
        if index < slots {
          StoreEntry(index, slots - index, [], NoOp);
        }
        status := Full;
      }
    }

    /**
     * Up to the addition: fetch_add adds to whatever the counter is, compare_exchange only to the value it
     * was given and otherwise stores the present one for the next attempt. Others interfere a finite number of times.
     */
    method Agree(seen: nat) returns (index: nat)
      requires Valid()
      modifies this`counter, this`q, this`accepted, entries, buffer
      ensures Valid() && Extended(old(q), q, old(accepted), accepted)
      ensures index == counter
    {
      Others();
      index := seen;
      if !cas {
        index := counter;
      } else {
        var interruptions: nat := *;
        while counter != index
          invariant Valid() && Extended(old(q), q, old(accepted), accepted)
          decreases interruptions, counter != index
        {
          index := counter;
          if interruptions > 0 {
            Others();
            interruptions := interruptions - 1;
          }
        }
      }
    }

    /** The size field, then the arguments, and at last the pointer that makes the entry visible. */
    method StoreEntry(index: nat, size: nat, args: seq<seq<Byte>>, f: Fn)
      requires index < entries.Length && index * slotSize + HEADER + |Concat(args)| <= buffer.Length
      modifies entries, buffer
      ensures entries[..] == old(entries[..])[index := f]
      ensures buffer[..] == Splice(old(buffer[..]), index * slotSize, Le32(size) + Concat(args))
    {
      ghost var was := buffer[..];
      Store(buffer, index * slotSize, Le32(size));
      ForwardAll(buffer, index * slotSize + HEADER, args);
      SpliceTwice(was, index * slotSize, Le32(size), Concat(args));
      entries[index] := f;
    }

    /** Other threads complete any number of enqueues, whatever they had seen of the counter before. */
    method Others()
      requires Valid()
      modifies this`counter, this`q, this`accepted, entries, buffer
      ensures Valid() && Extended(old(q), q, old(accepted), accepted)
    {
      var n: nat := *;
      while n > 0
        invariant Valid() && Extended(old(q), q, old(accepted), accepted)
      {
        var call: Call := *;
        if Slots(slotSize, call) <= slots {
          ghost var q0, a0 := q, accepted;
          LiveFacts(slots, slotSize, entries[..], buffer[..], q, accepted, call);
          var status := Claim(call);
          ExtendedStep(slots, old(q), q0, q, old(accepted), a0, accepted, Slots(slotSize, call));
        }
        n := n - 1;
      }
    }

    /**
     * enqueue: a call is accepted last, exactly if the first load and then the addition find room for it. index is
     * the value the addition finds; unless others have moved the counter it is the value loaded first.
     */
    method Enqueue(call: Call) returns (status: Status, ghost others: seq<Call>, ghost index: nat)
      requires Valid() && Slots(slotSize, call) <= slots
      modifies this`counter, this`q, this`accepted, entries, buffer
      ensures Valid() && q.live == old(q).live && q.pos == old(q).pos
      ensures accepted == old(accepted) + others + if status == Success then [call] else []
      ensures status == Closed <==> old(counter) + Slots(slotSize, call) > slots
      ensures status == Closed ==> (q, others) == (old(q), []) && counter == index == old(counter)
      ensures status != Closed ==> old(counter) <= index && counter == index + Slots(slotSize, call)
      ensures status != Closed ==> (status == Success <==> index + Slots(slotSize, call) <= slots)
      ensures !q.live ==> status != Success && accepted == old(accepted)
    {
      var req := ReqEntries(slotSize, |Concat(call.args + [call.promise])|);
      var loaded := counter;
      others, index := [], loaded;
      if loaded > slots - req {
        LiveFacts(slots, slotSize, entries[..], buffer[..], q, accepted, call);
        status := Closed;
      } else {
        ghost var a0 := accepted;
        var found := Agree(loaded);
        others, index := accepted[|a0|..], found;
        status := Add(call);
      }
    }

    /** The rest of enqueue, on a queue that other threads may have changed since the first check. */
    method Add(call: Call) returns (status: Status)
      requires Valid() && Slots(slotSize, call) <= slots
      modifies this`counter, this`q, this`accepted, entries, buffer
      ensures Valid() && q.live == old(q).live && q.pos == old(q).pos
      ensures counter == old(counter) + Slots(slotSize, call)
      ensures status == if old(counter) + Slots(slotSize, call) <= slots then Success else Full
      ensures accepted == old(accepted) + if status == Success then [call] else []
      ensures !q.live ==> status == Full
    {
      LiveFacts(slots, slotSize, entries[..], buffer[..], q, accepted, call);
      status := Claim(call);
    }

    /** The calls executed so far are those accepted first. */
    ghost predicate Ran(executed: seq<Call>)
      reads this
    {
      && q.pos <= q.lim <= |q.res| && Tally(q.res, q.pos) <= |accepted|
      && executed == accepted[..Tally(q.res, q.pos)]
    }

    /** The inner loop of flush: the entries from done up to todo. */
    method RunEntries(done: nat, todo: nat, executed0: seq<Call>) returns (executed: seq<Call>)
      requires Valid() && Ran(executed0)
      requires done == Q.Start(q.res, q.pos) && todo == Q.Start(q.res, q.lim)
      modifies this`counter, this`q, this`accepted, entries, buffer
      ensures Valid() && q.pos == q.lim && Drained(old(q), q, old(accepted), accepted)
      ensures Ran(executed) && todo == Q.Start(q.res, q.pos)
    {
      executed := executed0;
      var index := done;
      while index < todo
        invariant Valid() && Ran(executed) && Drained(old(q), q, old(accepted), accepted)
        invariant index == Q.Start(q.res, q.pos) && todo == Q.Start(q.res, q.lim)
        decreases todo - index
      {
        var size;
        size, executed := NextEntry(index, executed);
        index := index + size;
      }
      StartOrder(slots, slotSize, entries[..], buffer[..], q, accepted);
    }

    /** One turn of that loop. Every reserved entry is published here, so the wait for its pointer ends at once. */
    method NextEntry(index: nat, executed0: seq<Call>) returns (size: nat, executed: seq<Call>)
      requires Valid() && Ran(executed0) && index == Q.Start(q.res, q.pos) < Q.Start(q.res, q.lim)
      modifies this`counter, this`q, this`accepted, entries, buffer
      ensures Valid() && Drained(old(q), q, old(accepted), accepted) && q.pos == old(q).pos + 1
      ensures size >= 1 && index + size == Q.Start(q.res, q.pos)
      ensures Q.Start(q.res, q.lim) == Q.Start(old(q).res, old(q).lim)
      ensures Ran(executed)
    {
      StartOrder(slots, slotSize, entries[..], buffer[..], q, accepted);
      ghost var q0, a0 := q, accepted;
      Others();
      ExtendedKeeps(q0, q, a0, accepted);
      size, executed := RunEntry(index, executed0);
    }

    method RunEntry(index: nat, executed0: seq<Call>) returns (size: nat, executed: seq<Call>)
      requires Valid() && Ran(executed0) && q.pos < q.lim && index == Q.Start(q.res, q.pos)
      modifies this`q
      ensures Valid() && q == Q.Advance(old(q)) && q.pos <= q.lim
      ensures size >= 1 && index + size == Q.Start(q.res, q.pos)
      ensures Ran(executed)
    {
      NextStart(slots, slotSize, entries[..], buffer[..], q, accepted);
      ReadRep(slots, slotSize, entries[..], buffer[..], q, accepted);
      size, executed := Execute(index, executed0, Tally(q.res, q.pos), Tally(q.res, q.pos + 1), q.res[q.pos].size);
      Pass();
    }

    /** History: the entry at the flush position has been executed. */
    ghost method Pass()
      requires Valid() && q.pos < q.lim
      modifies this`q
      ensures Valid() && q == Q.Advance(old(q))
    {
      AdvanceRep(slots, slotSize, entries[..], buffer[..], q, accepted);
      q := Q.Advance(q);
    }

    /** Loads the pointer and the size, and calls the pointer. */
    method Execute(index: nat, executed0: seq<Call>, ghost n: nat, ghost m: nat,
                   ghost stored: nat) returns (size: nat, executed: seq<Call>)
      requires SizeIs(buffer[..], slotSize, index, stored)
      requires CallIs(entries[..], buffer[..], slotSize, index, accepted, n, m)
      requires executed0 == accepted[..n]
      ensures size == stored && executed == accepted[..m]
    {
      var fun := entries[index];
      size := FromLe32(buffer[index * slotSize..index * slotSize + HEADER]);
      executed := executed0;
      if fun.Wrapper? {
        executed := executed + [Unmarshal(buffer[..], index * slotSize + HEADER, fun)];
      }
    }

    /**
     * flush: executes everything the period has accepted, in the order of acceptance, also
     * what other threads enqueue meanwhile, and leaves the queue closed and empty.
     */
    method Flush() returns (executed: seq<Call>)
      requires Valid() && q.live && q.pos == q.lim == 0
      modifies this`counter, this`q, this`accepted, entries, buffer
      ensures Valid() && Q.Quiet(q) && counter >= slots
      ensures old(accepted) <= accepted && executed == accepted
    {
      var todo, open := 0, true;
      executed := [];
      while open
        invariant Valid() && Ran(executed) && q.pos == q.lim && q.live == open && todo == Q.Start(q.res, q.pos) <= slots
        invariant !open ==> q.pos == |q.res|
        invariant old(accepted) <= accepted
        decreases open, slots - todo
      {
        var done := todo;
        todo, open := LoadTodo(done, executed);
        executed := RunEntries(done, todo, executed);
      }
      AllRan(slots, slotSize, entries[..], buffer[..], q, accepted);
      Clear(todo);
    }

    /** The head of the outer loop: how far to go, and whether this is the last round. */
    method LoadTodo(done: nat, ghost executed: seq<Call>) returns (todo: nat, open: bool)
      requires Valid() && Ran(executed) && q.live && q.pos == q.lim && done == Q.Start(q.res, q.pos)
      modifies this`counter, this`q, this`accepted, entries, buffer
      ensures Valid() && Ran(executed) && q.live == open && q.lim == |q.res| && q.pos == old(q).pos
      ensures done == Q.Start(q.res, q.pos) && todo == Q.Start(q.res, q.lim) <= slots
      ensures open ==> done < todo
      ensures old(accepted) <= accepted
    {
      ghost var q0, a0 := q, accepted;
      Others();
      ExtendedKeeps(q0, q, a0, accepted);
      LoadRep(slots, slotSize, entries[..], buffer[..], q, accepted);
      todo := counter;
      open := true;
      if todo == done {
        todo := Exchange(executed);
        open := false;
      } else {
        q := Q.LoadTodo(slots, q);
      }
      if todo >= slots {
        todo := slots;
        open := false;
      }
    }

    /**
     * counter.exchange(ENTRIES), which closes the queue. It is called only after a load that found everything
     * reserved so far executed; others may have enqueued since.
     */
    method Exchange(ghost executed: seq<Call>) returns (todo: nat)
      requires Valid() && Ran(executed) && q.live && q.pos == q.lim && counter == Q.Start(q.res, q.pos)
      modifies this`counter, this`q, this`accepted, entries, buffer
      ensures Valid() && Ran(executed) && !q.live && q.lim == |q.res| && q.pos == old(q).pos
      ensures Q.Start(q.res, q.pos) == Q.Start(old(q).res, old(q).pos)
      ensures Q.Start(q.res, q.lim) == if todo >= slots then slots else todo
      ensures old(accepted) <= accepted
    {
      ghost var q0, a0 := q, accepted;
      Others();
      ExtendedKeeps(q0, q, a0, accepted);
      LoadRep(slots, slotSize, entries[..], buffer[..], q, accepted);
      todo := counter;
      counter := slots;
      q := Q.Close(slots, q);
    }

    /** The final fill. */
    method Clear(todo: nat)
      requires Valid() && !q.live && q.pos == q.lim == |q.res| && todo == Q.End(q) <= slots
      modifies this`q, entries
      ensures Valid() && Q.Quiet(q) && q.res == old(q).res && counter >= slots
    {
      var i := 0;
      while i < todo
        invariant i <= todo && Valid() && q == old(q).(fn := q.fn)
        invariant |q.fn| == slots || i == 0
        invariant forall j :: 0 <= j < i && j < |q.fn| ==> q.fn[j] == Q.Null
      {
        ClearRep(slots, slotSize, entries[..], buffer[..], q, accepted, i);
        entries[i] := Null;
        q := Q.ClearSlot(q, i);
        i := i + 1;
      }
      ClearedIsQuiet(slots, slotSize, entries[..], buffer[..], q, accepted);
    }
  }

  // ---------- the steps on values ----------

  /** What a claim that starts at the end of the queue does to it. */
  ghost predicate Appended(slots: nat, q: Q.Queue, q': Q.Queue, req: nat, op: OpId) {
    && (q'.live, q'.pos, q'.lim) == (q.live, q.pos, q.lim)
    && q'.res == (if q.counter + req <= slots then q.res + [Q.Reservation(q.counter, req, Some(op), 0, Q.Published)]
                  else if q.counter < slots then
                    q.res + [Q.Reservation(q.counter, slots - q.counter, None, 0, Q.Published)]
                  else q.res)
  }

  /** What other threads' enqueues may do to a queue: append, while it is open. */
  ghost predicate Extended(q: Q.Queue, q': Q.Queue, accepted: seq<Call>, more: seq<Call>) {
    && q.res <= q'.res && q.counter <= q'.counter
    && (q'.live, q'.pos, q'.lim) == (q.live, q.pos, q.lim)
    && accepted <= more
    && (!q.live ==> q'.res == q.res && more == accepted)
  }

  /** What the inner loop of flush may do, with the other threads. */
  ghost predicate Drained(q: Q.Queue, q': Q.Queue, accepted: seq<Call>, more: seq<Call>) {
    && q.res <= q'.res
    && (q'.live, q'.lim) == (q.live, q.lim) && q.pos <= q'.pos <= q'.lim
    && accepted <= more
    && (!q.live ==> q'.res == q.res && more == accepted)
  }

  lemma ExtendedStep(slots: nat, q: Q.Queue, q1: Q.Queue, q2: Q.Queue, a: seq<Call>, a1: seq<Call>, a2: seq<Call>,
                     req: nat)
    requires Extended(q, q1, a, a1) && Appended(slots, q1, q2, req, |a1|) && a1 <= a2 && q1.counter <= q2.counter
    requires 1 <= req && (q1.counter + req > slots ==> a2 == a1) && (!q1.live ==> q1.counter >= slots)
    ensures Extended(q, q2, a, a2)
  {
  }

  lemma ExtendedKeeps(q: Q.Queue, q': Q.Queue, a: seq<Call>, a': seq<Call>)
    requires Extended(q, q', a, a') && q.pos <= q.lim <= |q.res| && Tally(q.res, q.pos) <= |a|
    ensures Tally(q'.res, q.pos) == Tally(q.res, q.pos)
    ensures Q.Start(q'.res, q.pos) == Q.Start(q.res, q.pos) && Q.Start(q'.res, q.lim) == Q.Start(q.res, q.lim)
    ensures a'[..Tally(q.res, q.pos)] == a[..Tally(q.res, q.pos)]
  {
    TallySame(q.res, q'.res, q.pos);
  }

  lemma LiveFacts(slots: nat, slotSize: nat, entries: seq<Fn>, bytes: seq<Byte>, q: Q.Queue, accepted: seq<Call>,
                  call: Call)
    requires 1 <= slotSize && Rep(slots, slotSize, entries, bytes, q, accepted)
    ensures !q.live ==> q.counter >= slots
    ensures Slots(slotSize, call) >= 1
  {
    SlotsSuffice(slotSize, |Payload(call)|);
  }

  lemma OpenRep(slots: nat, slotSize: nat, entries: seq<Fn>, bytes: seq<Byte>, q: Q.Queue, accepted: seq<Call>)
    requires Rep(slots, slotSize, entries, bytes, q, accepted) && Q.Quiet(q)
    ensures Rep(slots, slotSize, entries, bytes, Q.Open(q), [])
  {
    Q.OpenKeeps(slots, q);
  }

  lemma ClaimRep(slots: nat, slotSize: nat, entries: seq<Fn>, bytes: seq<Byte>, q: Q.Queue, accepted: seq<Call>,
                 call: Call) returns (q': Q.Queue)
    requires HEADER <= slotSize && |entries| == slots && |bytes| == slots * slotSize
    requires Rep(slots, slotSize, entries, bytes, q, accepted) && Slots(slotSize, call) <= slots
    ensures Appended(slots, q, q', Slots(slotSize, call), |accepted|) && q'.counter == q.counter + Slots(slotSize, call)
    ensures q.counter + Slots(slotSize, call) <= slots ==>
      StoredAs(slots, slotSize, entries, bytes, q.counter, WrapperOf(call), Slots(slotSize, call), Payload(call),
               q', accepted + [call])
      && q.counter < slots
    ensures q.counter < slots < q.counter + Slots(slotSize, call) ==>
      StoredAs(slots, slotSize, entries, bytes, q.counter, NoOp, slots - q.counter, [], q', accepted)
    ensures q.counter >= slots ==> Rep(slots, slotSize, entries, bytes, q', accepted)
  {
    SlotsSuffice(slotSize, |Payload(call)|);
    q' := Claimed(slots, q, |accepted|, Slots(slotSize, call));
    if q.counter < slots {
      ClaimedIs(slots, q, |accepted|, Slots(slotSize, call));
      RepClaimed(slots, slotSize, entries, bytes, q, accepted, call);
    } else {
      ClaimedWf(slots, q, |accepted|, Slots(slotSize, call));
    }
  }

  /** Once f and the bytes of an entry are stored at index, the arrays stand for q. */
  ghost predicate StoredAs(slots: nat, slotSize: nat, entries: seq<Fn>, bytes: seq<Byte>, index: nat, f: Fn,
                           size: nat, payload: seq<Byte>,
                           q: Q.Queue, accepted: seq<Call>) {
    && index < |entries| && index * slotSize + HEADER + |payload| <= |bytes|
    && Rep(slots, slotSize, entries[index := f], Splice(bytes, index * slotSize, Le32(size) + payload), q, accepted)
  }

  lemma StartOrder(slots: nat, slotSize: nat, entries: seq<Fn>, bytes: seq<Byte>, q: Q.Queue, accepted: seq<Call>)
    requires Rep(slots, slotSize, entries, bytes, q, accepted) && q.pos <= q.lim <= |q.res|
    ensures q.pos < q.lim <==> Q.Start(q.res, q.pos) < Q.Start(q.res, q.lim)
  {
    Q.StartMonotone(q.res, q.pos, q.lim);
  }

  /** Where the size field of the entry at index is, and what it says. */
  ghost predicate SizeIs(bytes: seq<Byte>, slotSize: nat, index: nat, size: nat) {
    index * slotSize + HEADER <= |bytes| && FromLe32(bytes[index * slotSize..index * slotSize + HEADER]) == size
  }

  /** Calling the pointer at index takes the number of executed calls from n to m. */
  ghost predicate CallIs(entries: seq<Fn>, bytes: seq<Byte>, slotSize: nat, index: nat, accepted: seq<Call>, n: nat,
                         m: nat) {
    && index < |entries| && n <= m <= |accepted|
    && (if entries[index].Wrapper? then
          accepted[..m] == accepted[..n] + [Unmarshal(bytes, index * slotSize + HEADER, entries[index])]
        else m == n)
  }

  /** What the flush reads at its position. */
  lemma ReadRep(slots: nat, slotSize: nat, entries: seq<Fn>, bytes: seq<Byte>, q: Q.Queue, accepted: seq<Call>)
    requires slots < 0x1_0000_0000
    requires Rep(slots, slotSize, entries, bytes, q, accepted) && q.pos < q.lim
    ensures SizeIs(bytes, slotSize, Q.Start(q.res, q.pos), q.res[q.pos].size)
    ensures CallIs(entries, bytes, slotSize, Q.Start(q.res, q.pos), accepted,
                   Tally(q.res, q.pos), Tally(q.res, q.pos + 1))
  {
    EntryReadBack(slots, slotSize, entries, bytes, q, accepted);
    TallyGrows(q.res, q.pos + 1, |q.res|);
  }

  lemma AllFurther(entries: seq<Fn>, bytes: seq<Byte>, slotSize: nat, accepted: seq<Call>, res: seq<Q.Reservation>,
                   pos: nat)
    requires AllOk(entries, bytes, slotSize, accepted, res, pos)
    ensures AllOk(entries, bytes, slotSize, accepted, res, pos + 1)
  {
  }

  /** And that it may move on. */
  lemma AdvanceRep(slots: nat, slotSize: nat, entries: seq<Fn>, bytes: seq<Byte>, q: Q.Queue, accepted: seq<Call>)
    requires Rep(slots, slotSize, entries, bytes, q, accepted) && q.pos < q.lim
    ensures Rep(slots, slotSize, entries, bytes, Q.Advance(q), accepted)
  {
    assert EntryAt(entries, bytes, slotSize, accepted, q.res, q.pos);
    AllFurther(entries, bytes, slotSize, accepted, q.res, q.pos);
    MoveOn(slots, q);
  }

  lemma NextStart(slots: nat, slotSize: nat, entries: seq<Fn>, bytes: seq<Byte>, q: Q.Queue, accepted: seq<Call>)
    requires Rep(slots, slotSize, entries, bytes, q, accepted) && q.pos < q.lim
    ensures q.res[q.pos].size >= 1 && Q.Start(q.res, q.pos + 1) == Q.Start(q.res, q.pos) + q.res[q.pos].size
  {
    MoveOn(slots, q);
  }

  lemma MoveOn(slots: nat, q: Q.Queue)
    requires Q.Wf(slots, q) && q.pos < q.lim
    ensures q.res[q.pos].stage == Q.Published ==> Q.Wf(slots, Q.Advance(q))
    ensures q.res[q.pos].size >= 1 && Q.Start(q.res, q.pos + 1) == Q.Start(q.res, q.pos) + q.res[q.pos].size
  {
    assert Q.Follows(q.res, q.pos);
    if q.res[q.pos].stage == Q.Published {
      Q.AdvanceKeeps(slots, q);
    }
  }

  lemma LoadRep(slots: nat, slotSize: nat, entries: seq<Fn>, bytes: seq<Byte>, q: Q.Queue, accepted: seq<Call>)
    requires Rep(slots, slotSize, entries, bytes, q, accepted) && q.live
    ensures Rep(slots, slotSize, entries, bytes, Q.LoadTodo(slots, q), accepted)
    ensures Rep(slots, slotSize, entries, bytes, Q.Close(slots, q), accepted)
    ensures Q.Start(q.res, |q.res|) == Min(q.counter, slots)
    ensures q.pos <= q.lim <= |q.res| && Q.Start(q.res, q.pos) <= Q.Start(q.res, |q.res|)
  {
    Q.LoadTodoKeeps(slots, q);
    Q.CloseKeeps(slots, q);
    Q.StartMonotone(q.res, q.pos, |q.res|);
  }

  lemma AllRan(slots: nat, slotSize: nat, entries: seq<Fn>, bytes: seq<Byte>, q: Q.Queue, accepted: seq<Call>)
    requires Rep(slots, slotSize, entries, bytes, q, accepted) && q.pos == |q.res|
    ensures Tally(q.res, q.pos) == |accepted|
  {
  }

  lemma ClearRep(slots: nat, slotSize: nat, entries: seq<Fn>, bytes: seq<Byte>, q: Q.Queue, accepted: seq<Call>, i: nat)
    requires Rep(slots, slotSize, entries, bytes, q, accepted) && q.pos == |q.res| && i < slots == |entries|
    ensures |q.fn| == slots
    ensures Rep(slots, slotSize, entries[i := Null], bytes, Q.ClearSlot(q, i), accepted)
  {
    Q.ClearSlotKeeps(slots, q, i);
  }

  lemma ClearedIsQuiet(slots: nat, slotSize: nat, entries: seq<Fn>, bytes: seq<Byte>, q: Q.Queue, accepted: seq<Call>)
    requires Rep(slots, slotSize, entries, bytes, q, accepted) && !q.live && q.pos == q.lim == |q.res|
    requires forall j :: 0 <= j < Q.End(q) && j < |q.fn| ==> q.fn[j] == Q.Null
    ensures Q.Quiet(q) && q.counter >= slots
  {
  }
}
