/**
 * What the two arrays of dual_buffer_queue, the function pointers and the bytes, stand
 * for: the reservations of TantrumQueue, each with its call marshalled into its slots.
 */
module EntryLayout {
  import opened Prelude
  import opened Marshalling
  import Q = TantrumQueue

  /** A delegated call: the wrapped function, its arguments, and the promise, which may be empty. */
  datatype Call = Call(id: nat, args: seq<seq<Byte>>, promise: seq<Byte>)

  /** A function pointer. A wrapper is compiled for one function and its parameter types. */
  datatype Fn = Null | NoOp | Wrapper(id: nat, sizes: seq<nat>, promiseSize: nat)

  function WrapperOf(call: Call): Fn {
    Wrapper(call.id, SizesOf(call.args), |call.promise|)
  }

  /** What enqueue writes behind the size field. */
  function Payload(call: Call): seq<Byte> {
    Concat(call.args + [call.promise])
  }

  function Slots(slotSize: nat, call: Call): nat
    requires slotSize > 0
  {
    ReqEntries(slotSize, |Payload(call)|)
  }

  function Kind(f: Fn): Q.Fn {
    match f
    case Null => Q.Null
    case NoOp => Q.Nop
    case Wrapper(_, _, _) => Q.Wrapper
  }

  /** What a wrapper does with the pointer it is given. */
  function Unmarshal(buf: seq<Byte>, at: nat, f: Fn): Call
    requires f.Wrapper?
  {
    var (args, end) := Unpack(buf, at, f.sizes, []);
    Call(f.id, args, if end + f.promiseSize <= |buf| then buf[end..end + f.promiseSize] else [])
  }

  /** A wrapper called on a payload performs the call that was marshalled. */
  lemma UnmarshalRoundTrip(buf: seq<Byte>, at: nat, call: Call)
    requires Holds(buf, at, Payload(call))
    ensures Unmarshal(buf, at, WrapperOf(call)) == call
  {
    PromiseFollows(buf, at, call.args, call.promise);
  }

  // ---------- the calls of a period ----------

  /** How many of the first k reservations carry a call. */
  function Tally(res: seq<Q.Reservation>, k: nat): nat
    requires k <= |res|
  {
    if k == 0 then 0 else Tally(res, k - 1) + if res[k - 1].op.Some? then 1 else 0
  }

  lemma {:induction false} TallySame(res: seq<Q.Reservation>, res': seq<Q.Reservation>, k: nat)
    requires k <= |res| && k <= |res'| && forall j :: 0 <= j < k ==> res'[j].op == res[j].op
    ensures Tally(res', k) == Tally(res, k)
  {
    if k > 0 {
      TallySame(res, res', k - 1);
    }
  }

  lemma {:induction false} TallyGrows(res: seq<Q.Reservation>, j: nat, k: nat)
    requires j <= k <= |res|
    ensures Tally(res, j) <= Tally(res, k)
    decreases k
  {
    if j < k {
      TallyGrows(res, j, k - 1);
    }
  }

  /** Calls are numbered in the order of their reservations. */
  ghost predicate NumberOk(res: seq<Q.Reservation>, k: nat)
    requires k < |res|
  {
    res[k].op.Some? ==> res[k].op.value == Tally(res, k)
  }

  ghost predicate Numbered(res: seq<Q.Reservation>, n: nat) {
    Tally(res, |res|) == n && forall k :: 0 <= k < |res| ==> NumberOk(res, k)
  }

  /** The slots of reservation r hold its size field and, unless it is padding, its call. */
  ghost predicate EntryOk(entries: seq<Fn>, bytes: seq<Byte>, slotSize: nat, accepted: seq<Call>, r: Q.Reservation)
    requires r.index < |entries|
  {
    && r.stage == Q.Published
    && Holds(bytes, r.index * slotSize, Le32(r.size))
    && (r.op.None? ==> entries[r.index] == NoOp)
    && (r.op.Some? ==>
          && r.op.value < |accepted|
          && entries[r.index] == WrapperOf(accepted[r.op.value])
          && Holds(bytes, r.index * slotSize + HEADER, Payload(accepted[r.op.value]))
          && HEADER + |Payload(accepted[r.op.value])| <= r.size * slotSize)
  }

  ghost predicate EntryAt(entries: seq<Fn>, bytes: seq<Byte>, slotSize: nat, accepted: seq<Call>,
                          res: seq<Q.Reservation>, k: nat)
    requires k < |res|
  {
    res[k].index < |entries| && EntryOk(entries, bytes, slotSize, accepted, res[k])
  }

  ghost predicate AllOk(entries: seq<Fn>, bytes: seq<Byte>, slotSize: nat, accepted: seq<Call>,
                        res: seq<Q.Reservation>, pos: nat) {
    forall k :: pos <= k < |res| ==> EntryAt(entries, bytes, slotSize, accepted, res, k)
  }

  /** The arrays represent queue q, whose current period has accepted these calls. */
  ghost predicate Rep(slots: nat, slotSize: nat, entries: seq<Fn>, bytes: seq<Byte>, q: Q.Queue, accepted: seq<Call>) {
    && |entries| == slots
    && |bytes| == slots * slotSize
    && Q.Wf(slots, q)
    && (forall i :: 0 <= i < slots ==> Kind(entries[i]) == q.fn[i])
    && AllOk(entries, bytes, slotSize, accepted, q.res, q.pos)
    && Numbered(q.res, |accepted|)
  }

  // ---------- storing an entry ----------

  /** The complete effect of the atomic accesses of an enqueue on the queue. */
  function Claimed(slots: nat, q: Q.Queue, op: OpId, req: nat): Q.Queue
    requires |q.fn| == |q.cells| == slots && req <= slots
  {
    var q1 := Q.Reserve(slots, q, 0, op, req);
    var k := |q.res|;
    if Q.Fits(slots, q.counter, req) && q.counter < slots then
      Q.Publish(Q.WriteEntry(q1, q.counter, req, op, k), q.counter, Q.Wrapper, k)
    else if q.counter < slots then
      Q.Publish(Q.WritePad(q1, q.counter, slots - q.counter, k), q.counter, Q.Nop, k)
    else q1
  }

  lemma ClaimedWf(slots: nat, q: Q.Queue, op: OpId, req: nat)
    requires Q.Wf(slots, q) && 1 <= req <= slots
    ensures Q.Wf(slots, Claimed(slots, q, op, req))
  {
    var q1 := Q.Reserve(slots, q, 0, op, req);
    var k := |q.res|;
    Q.ReserveKeeps(slots, q, 0, op, req);
    if Q.Fits(slots, q.counter, req) && q.counter < slots {
      Q.WriteEntryKeeps(slots, q1, q.counter, req, op, k);
      Q.PublishKeeps(slots, Q.WriteEntry(q1, q.counter, req, op, k), q.counter, Q.Wrapper, k);
    } else if q.counter < slots {
      Q.WritePadKeeps(slots, q1, q.counter, slots - q.counter, k);
      Q.PublishKeeps(slots, Q.WritePad(q1, q.counter, slots - q.counter, k), q.counter, Q.Nop, k);
    }
  }

  /** What a claim that gets slots does, in one piece. */
  lemma ClaimedIs(slots: nat, q: Q.Queue, op: OpId, req: nat)
    requires Q.Wf(slots, q) && 1 <= req <= slots && q.counter < slots
    ensures
      var fits := q.counter + req <= slots;
      var q' := Claimed(slots, q, op, req);
      && q'.res == q.res + [Q.Reservation(q.counter, if fits then req else slots - q.counter, if fits then Some(op)
          else None, 0, Q.Published)]
      && q'.fn == q.fn[q.counter := if fits then Q.Wrapper else Q.Nop]
      && (q'.pos, q'.lim, q'.live, q'.counter) == (q.pos, q.lim, q.live, q.counter + req)
  {
  }

  lemma SlotBytes(slots: nat, slotSize: nat, index: nat, size: nat)
    requires index + size <= slots
    ensures index * slotSize + size * slotSize == (index + size) * slotSize <= slots * slotSize
  {
    Monotone(slotSize, index + size, slots);
  }

  lemma Monotone(d: nat, a: nat, b: nat)
    requires a <= b
    ensures a * d <= b * d
  {
  }

  /** The bytes of a call stay inside its entry, before the next entry and inside the buffer. */
  lemma EntryBytesDisjoint(slots: nat, slotSize: nat, q: Q.Queue, j: nat, call: Call)
    requires slotSize > 0 && Q.Wf(slots, q) && j < |q.res| && q.res[j].size == Slots(slotSize, call)
    ensures q.res[j].index * slotSize + HEADER + |Payload(call)| <= slots * slotSize
    ensures forall k :: j < k < |q.res| ==>
        q.res[j].index * slotSize + HEADER + |Payload(call)| <= q.res[k].index * slotSize
  {
    var r := q.res[j];
    SlotsSuffice(slotSize, |Payload(call)|);
    SlotBytes(slots, slotSize, r.index, r.size);
    forall k | j < k < |q.res| ensures r.index * slotSize + HEADER + |Payload(call)| <= q.res[k].index * slotSize {
      Monotone(slotSize, r.index + r.size, q.res[k].index);
    }
  }

  /** Writing into the slots from index on does not disturb an entry before it. */
  lemma EntryKept(entries: seq<Fn>, entries': seq<Fn>, bytes: seq<Byte>, slotSize: nat, accepted: seq<Call>,
                  more: seq<Call>,
                  r: Q.Reservation, at: nat, written: seq<Byte>)
    requires r.index < |entries| == |entries'| && EntryOk(entries, bytes, slotSize, accepted, r)
    requires HEADER <= r.size * slotSize && r.index * slotSize + r.size * slotSize <= at && at + |written| <= |bytes|
    requires entries'[r.index] == entries[r.index] && accepted <= more
    ensures EntryOk(entries', Splice(bytes, at, written), slotSize, more, r)
  {
    SpliceKeeps(bytes, at, written, r.index * slotSize, Le32(r.size));
    if r.op.Some? {
      SpliceKeeps(bytes, at, written, r.index * slotSize + HEADER, Payload(accepted[r.op.value]));
    }
  }

  /** The entry that was written. */
  lemma EntryWritten(entries: seq<Fn>, bytes: seq<Byte>, slotSize: nat, accepted: seq<Call>, r: Q.Reservation,
                     payload: seq<Byte>)
    requires r.index < |entries| && r.stage == Q.Published
    requires r.index * slotSize + HEADER + |payload| <= |bytes|
    requires r.op.None? ==> entries[r.index] == NoOp
    requires r.op.Some? ==> r.op.value < |accepted| && entries[r.index] == WrapperOf(accepted[r.op.value])
    requires r.op.Some? ==> payload == Payload(accepted[r.op.value])
    requires HEADER + |payload| <= r.size * slotSize
    ensures EntryOk(entries, Splice(bytes, r.index * slotSize, Le32(r.size) + payload), slotSize, accepted, r)
  {
    var at, written := r.index * slotSize, Le32(r.size) + payload;
    SpliceHolds(bytes, at, written);
    HoldsParts(Splice(bytes, at, written), at, Le32(r.size), payload);
  }

  lemma NumberedAppend(res: seq<Q.Reservation>, r: Q.Reservation, n: nat)
    requires Numbered(res, n) && (r.op.Some? ==> r.op.value == n)
    ensures Numbered(res + [r], n + if r.op.Some? then 1 else 0)
  {
    var res' := res + [r];
    TallySame(res, res', |res|);
    forall k | 0 <= k < |res'| ensures NumberOk(res', k) {
      TallySame(res, res', k);
      assert k < |res| ==> NumberOk(res, k);
    }
  }

  /** An enqueue that got slots: the arrays with the new entry represent the claimed queue. */
  lemma RepClaimed(slots: nat, slotSize: nat, entries: seq<Fn>, bytes: seq<Byte>, q: Q.Queue, accepted: seq<Call>,
                   call: Call)
    requires slotSize >= HEADER && Rep(slots, slotSize, entries, bytes, q, accepted) && q.counter < slots
    requires Slots(slotSize, call) <= slots
    ensures
      var fits := q.counter + Slots(slotSize, call) <= slots;
      var size := if fits then Slots(slotSize, call) else slots - q.counter;
      var payload := if fits then Payload(call) else [];
      && q.counter * slotSize + HEADER + |payload| <= |bytes|
      && Rep(slots, slotSize, entries[q.counter := if fits then WrapperOf(call) else NoOp],
             Splice(bytes, q.counter * slotSize, Le32(size) + payload),
             Claimed(slots, q, |accepted|, Slots(slotSize, call)),
             if fits then accepted + [call] else accepted)
  {
    SlotsSuffice(slotSize, |Payload(call)|);
    var req := Slots(slotSize, call);
    var fits := q.counter + req <= slots;
    var r := Q.Reservation(q.counter, if fits then req else slots - q.counter, if fits then Some(|accepted|)
        else None, 0, Q.Published);
    ClaimedIs(slots, q, |accepted|, req);
    ClaimedWf(slots, q, |accepted|, req);
    SlotBytes(slots, slotSize, q.counter, r.size);
    Monotone(slotSize, 1, r.size);
    RepStored(slots, slotSize, entries, bytes, q, accepted, r, if fits then call
        else Call(0, [], []), Claimed(slots, q, |accepted|, req));
  }

  lemma RepStored(slots: nat, slotSize: nat, entries: seq<Fn>, bytes: seq<Byte>, q: Q.Queue, accepted: seq<Call>,
                  r: Q.Reservation, call: Call, q': Q.Queue)
    requires slotSize >= HEADER && Rep(slots, slotSize, entries, bytes, q, accepted)
    requires r.index == Q.End(q) < slots && r.index * slotSize + r.size * slotSize <= slots * slotSize
    requires HEADER <= r.size * slotSize
    requires r.stage == Q.Published
    requires (r.op.Some? ==> r.op == Some(|accepted|) && HEADER + |Payload(call)| <= r.size * slotSize)
    requires Q.Wf(slots, q') && q'.res == q.res + [r] && q'.pos == q.pos
    requires q'.fn == q.fn[r.index := if r.op.Some? then Q.Wrapper else Q.Nop]
    ensures
      var payload := if r.op.Some? then Payload(call) else [];
      && r.index * slotSize + HEADER + |payload| <= |bytes|
      && Rep(slots, slotSize, entries[r.index := if r.op.Some? then WrapperOf(call) else NoOp],
             Splice(bytes, r.index * slotSize, Le32(r.size) + payload), q',
             if r.op.Some? then accepted + [call] else accepted)
  {
    var payload := if r.op.Some? then Payload(call) else [];
    var entries' := entries[r.index := if r.op.Some? then WrapperOf(call) else NoOp];
    var accepted' := if r.op.Some? then accepted + [call] else accepted;
    AllBefore(slots, q);
    EntryWritten(entries', bytes, slotSize, accepted', r, payload);
    AllStored(entries, entries', bytes, slotSize, accepted, accepted', q.res, q.pos, r, Le32(r.size) + payload);
    NumberedAppend(q.res, r, |accepted|);
  }

  ghost predicate Before(r: Q.Reservation, index: nat) {
    1 <= r.size && r.index + r.size <= index
  }

  lemma AllBefore(slots: nat, q: Q.Queue)
    requires Q.Wf(slots, q)
    ensures forall k :: 0 <= k < |q.res| ==> Before(q.res[k], Q.End(q))
  {
  }

  lemma AllStored(entries: seq<Fn>, entries': seq<Fn>, bytes: seq<Byte>, slotSize: nat, accepted: seq<Call>,
                  more: seq<Call>,
                  res: seq<Q.Reservation>, pos: nat, r: Q.Reservation, written: seq<Byte>)
    requires slotSize >= HEADER && AllOk(entries, bytes, slotSize, accepted, res, pos)
    requires forall k :: 0 <= k < |res| ==> Before(res[k], r.index)
    requires r.index < |entries'| == |entries| && forall i :: 0 <= i < r.index ==> entries'[i] == entries[i]
    requires accepted <= more && r.index * slotSize + |written| <= |bytes|
    requires EntryOk(entries', Splice(bytes, r.index * slotSize, written), slotSize, more, r)
    ensures AllOk(entries', Splice(bytes, r.index * slotSize, written), slotSize, more, res + [r], pos)
  {
    forall k | pos <= k < |res + [r]|
      ensures EntryAt(entries', Splice(bytes, r.index * slotSize, written), slotSize, more, res + [r], k)
    {
      if k < |res| {
        assert EntryAt(entries, bytes, slotSize, accepted, res, k);
        EntryBefore(entries, entries', bytes, slotSize, accepted, more, res[k], r.index, written);
      }
    }
  }

  lemma EntryBefore(entries: seq<Fn>, entries': seq<Fn>, bytes: seq<Byte>, slotSize: nat, accepted: seq<Call>,
                    more: seq<Call>,
                    r: Q.Reservation, index: nat, written: seq<Byte>)
    requires slotSize >= HEADER && Before(r, index) && index < |entries'| == |entries|
    requires EntryOk(entries, bytes, slotSize, accepted, r)
    requires entries'[r.index] == entries[r.index]
    requires accepted <= more && index * slotSize + |written| <= |bytes|
    ensures EntryOk(entries', Splice(bytes, index * slotSize, written), slotSize, more, r)
  {
    SlotBytes(index, slotSize, r.index, r.size);
    Monotone(slotSize, 1, r.size);
    EntryKept(entries, entries', bytes, slotSize, accepted, more, r, index * slotSize, written);
  }

  /** Reading one entry gives its size and its call. */
  lemma ReadOne(entries: seq<Fn>, bytes: seq<Byte>, slotSize: nat, accepted: seq<Call>, r: Q.Reservation)
    requires r.index < |entries| && r.size < 0x1_0000_0000 && EntryOk(entries, bytes, slotSize, accepted, r)
    ensures r.index * slotSize + HEADER <= |bytes|
    ensures FromLe32(bytes[r.index * slotSize..r.index * slotSize + HEADER]) == r.size
    ensures r.op.Some? ==> entries[r.index].Wrapper?
    ensures r.op.Some? ==> Unmarshal(bytes, r.index * slotSize + HEADER, entries[r.index]) == accepted[r.op.value]
  {
    SizeFieldRoundTrip(r.size);
    if r.op.Some? {
      UnmarshalRoundTrip(bytes, r.index * slotSize + HEADER, accepted[r.op.value]);
    }
  }

  /** The flush reads back what was stored at its position. */
  lemma EntryReadBack(slots: nat, slotSize: nat, entries: seq<Fn>, bytes: seq<Byte>, q: Q.Queue, accepted: seq<Call>)
    requires slots < 0x1_0000_0000 && Rep(slots, slotSize, entries, bytes, q, accepted) && q.pos < |q.res|
    ensures
      var r := q.res[q.pos];
      var index := Q.Start(q.res, q.pos);
      && r.index == index < slots && index * slotSize + HEADER <= |bytes|
      && FromLe32(bytes[index * slotSize..index * slotSize + HEADER]) == r.size
      && (r.op.None? ==> entries[index] == NoOp)
      && (r.op.Some? ==> Performs(bytes, index * slotSize + HEADER, entries[index], accepted, Tally(q.res, q.pos)))
  {
    var r := q.res[q.pos];
    assert Q.Follows(q.res, q.pos) && NumberOk(q.res, q.pos);
    assert EntryAt(entries, bytes, slotSize, accepted, q.res, q.pos);
    ReadOne(entries, bytes, slotSize, accepted, r);
  }

  /** Calling f on the bytes at this position performs the n-th accepted call. */
  ghost predicate Performs(bytes: seq<Byte>, at: nat, f: Fn, accepted: seq<Call>, n: nat) {
    n < |accepted| && f.Wrapper? && Unmarshal(bytes, at, f) == accepted[n]
  }
}
