/**
 * The shared state of a delegation queue: the atomic counter, the array of
 * published function pointers and the entry buffer, together with history
 * variables that record which reservations the current open period has seen.
 *
 * Every function below is one atomic access of the program (a load, a store, a
 * fetch-and-add or an exchange), so that the protocol model can interleave them.
 */
module TantrumQueue {
  import opened Prelude

  /** A slot of the pointer array: empty, a wrapper function, or the padding no_op. */
  datatype Fn = Null | Wrapper | Nop

  /** What the buffer holds at the head of an entry: its size in slots and the
      marshalled operation. Both fields keep their old content until overwritten. */
  datatype Cell = Cell(size: nat, op: OpId)

  datatype Stage = Reserved | Written | Published

  /** History: one reservation of the open period; op is None for the padding entry. */
  datatype Reservation = Reservation(index: nat, size: nat, op: Option<OpId>, owner: Tid, stage: Stage)

  /**
   * counter, fn and cells are the program's variables. The others are history:
   * live tells whether reservations can still succeed, res lists the period's
   * reservations in the order of their slots, the first pos of them have been
   * executed, and the flush in progress has decided to execute the first lim.
   */
  datatype Queue = Queue(counter: nat, fn: seq<Fn>, cells: seq<Cell>,
                         live: bool, res: seq<Reservation>, pos: nat, lim: nat)

  /** First slot of reservation k; for k == |res| the first slot nobody reserved. */
  function Start(res: seq<Reservation>, k: nat): nat
    requires k <= |res|
  {
    if k == 0 then 0 else res[k - 1].index + res[k - 1].size
  }

  function End(q: Queue): nat {
    Start(q.res, |q.res|)
  }

  function FnOf(r: Reservation): Fn {
    if r.op.Some? then Wrapper else Nop
  }

  /** Reservation k begins where its predecessor ends. */
  ghost predicate Follows(res: seq<Reservation>, k: nat)
    requires k < |res|
  {
    res[k].index == Start(res, k)
  }

  /** The reservations tile a prefix of the slots: consecutive, non-empty, in order. */
  ghost predicate Tiled(entries: nat, res: seq<Reservation>) {
    && (forall k :: 0 <= k < |res| ==> Follows(res, k))
    && (forall k :: 0 <= k < |res| ==> 1 <= res[k].size && res[k].index + res[k].size <= entries)
    && (forall j, k :: 0 <= j < k < |res| ==> res[j].index + res[j].size <= res[k].index)
    && (forall k :: 0 <= k < |res| && res[k].op.None? ==> res[k].index + res[k].size == entries)
  }

  /** The entry of a reservation is in the buffer and its pointer is visible exactly when published. */
  ghost predicate Stored(fn: seq<Fn>, cells: seq<Cell>, r: Reservation)
    requires r.index < |fn| && r.index < |cells|
  {
    && fn[r.index] == (if r.stage == Published then FnOf(r) else Null)
    && (r.stage != Reserved ==> cells[r.index].size == r.size)
    && (r.stage != Reserved && r.op.Some? ==> cells[r.index].op == r.op.value)
  }

  ghost predicate Wf(entries: nat, q: Queue) {
    && |q.fn| == |q.cells| == entries
    && q.pos <= q.lim <= |q.res|
    && Tiled(entries, q.res)
    && (if q.live then End(q) == Min(q.counter, entries) else q.counter >= entries)
    && (forall k :: 0 <= k < q.pos ==> q.res[k].stage == Published)
    && (forall k :: q.pos <= k < |q.res| ==> Stored(q.fn, q.cells, q.res[k]))
    && (forall i :: End(q) <= i < entries ==> q.fn[i] == Null)
  }

  /** The state between a flush and the next open. */
  ghost predicate Quiet(q: Queue) {
    && !q.live
    && q.pos == q.lim == |q.res|
    && (forall i :: 0 <= i < |q.fn| ==> q.fn[i] == Null)
  }

  // ---------- the constructor and the atomic accesses ----------

  /** The constructor leaves the counter at ENTRIES, so the queue starts closed. */
  function New(entries: nat, cells: seq<Cell>): Queue {
    Queue(entries, seq(entries, _ => Null), cells, false, [], 0, 0)
  }

  function Open(q: Queue): Queue {
    q.(counter := 0, live := true, res := [], pos := 0, lim := 0)
  }

  /** The check an enqueuer makes before it touches the counter. */
  predicate LooksOpen(entries: nat, q: Queue, req: nat)
    requires req <= entries
  {
    q.counter <= entries - req
  }

  predicate Fits(entries: nat, index: nat, req: nat)
    requires req <= entries
  {
    index <= entries - req
  }

  /** fetch_add on the counter; the value before the addition is the caller's index. */
  function Reserve(entries: nat, q: Queue, t: Tid, op: OpId, req: nat): Queue
    requires req <= entries
  {
    var index := q.counter;
    q.(counter := index + req,
       res := if Fits(entries, index, req) then q.res + [Reservation(index, req, Some(op), t, Reserved)]
              else if index < entries then q.res + [Reservation(index, entries - index, None, t, Reserved)]
              else q.res)
  }

  /** Stores the size field and the marshalled arguments of an entry (history index k). */
  function WriteEntry(q: Queue, index: nat, size: nat, op: OpId, k: nat): Queue
    requires index < |q.cells| && k < |q.res|
  {
    q.(cells := q.cells[index := Cell(size, op)], res := q.res[k := q.res[k].(stage := Written)])
  }

  /** The overflowing enqueuer stores only the size of the remaining gap. */
  function WritePad(q: Queue, index: nat, size: nat, k: nat): Queue
    requires index < |q.cells| && k < |q.res|
  {
    q.(cells := q.cells[index := q.cells[index].(size := size)], res := q.res[k := q.res[k].(stage := Written)])
  }

  function Publish(q: Queue, index: nat, f: Fn, k: nat): Queue
    requires index < |q.fn| && k < |q.res|
  {
    q.(fn := q.fn[index := f], res := q.res[k := q.res[k].(stage := Published)])
  }

  /** The flush loads the counter; a value of ENTRIES or more ends the period. */
  function LoadTodo(entries: nat, q: Queue): Queue {
    if q.counter >= entries then q.(live := false, lim := |q.res|) else q.(lim := |q.res|)
  }

  /** The flush closes the queue by exchanging the counter with ENTRIES. */
  function Close(entries: nat, q: Queue): Queue {
    q.(counter := entries, live := false, lim := |q.res|)
  }

  /** History: the entry at the flush position has been executed. */
  function Advance(q: Queue): Queue {
    q.(pos := q.pos + 1)
  }

  function ClearSlot(q: Queue, i: nat): Queue
    requires i < |q.fn|
  {
    q.(fn := q.fn[i := Null])
  }

  // ---------- what the accesses keep ----------

  lemma NewIsQuiet(entries: nat, cells: seq<Cell>)
    requires |cells| == entries
    ensures Wf(entries, New(entries, cells)) && Quiet(New(entries, cells))
  {
  }

  lemma OpenKeeps(entries: nat, q: Queue)
    requires Wf(entries, q) && Quiet(q)
    ensures Wf(entries, Open(q)) && Open(q).live && End(Open(q)) == 0
  {
  }

  lemma TiledAppend(entries: nat, res: seq<Reservation>, r: Reservation)
    requires Tiled(entries, res) && r.index == Start(res, |res|) && 1 <= r.size && r.index + r.size <= entries
    requires r.op.None? ==> r.index + r.size == entries
    ensures Tiled(entries, res + [r])
  {
    var res' := res + [r];
    forall k | 0 <= k < |res'| ensures Follows(res', k) {
      assert k < |res| ==> Follows(res, k);
    }
  }

  lemma ReserveKeeps(entries: nat, q: Queue, t: Tid, op: OpId, req: nat)
    requires Wf(entries, q) && 1 <= req <= entries
    ensures Wf(entries, Reserve(entries, q, t, op, req))
    ensures q.res <= Reserve(entries, q, t, op, req).res
    ensures q.counter < entries ==>
        q.live && q.counter == End(q) && |Reserve(entries, q, t, op, req).res| == |q.res| + 1
    ensures q.counter >= entries ==> Reserve(entries, q, t, op, req).res == q.res
  {
    var q' := Reserve(entries, q, t, op, req);
    if q.counter < entries {
      TiledAppend(entries, q.res, q'.res[|q.res|]);
      forall k | q'.pos <= k < |q'.res| ensures Stored(q'.fn, q'.cells, q'.res[k]) {
        if k < |q.res| {
          assert Stored(q.fn, q.cells, q.res[k]);
        }
      }
    }
  }

  /** The tiling does not depend on how far the writers are. */
  lemma TiledFrame(entries: nat, res: seq<Reservation>, k: nat, stage: Stage)
    requires Tiled(entries, res) && k < |res|
    ensures Tiled(entries, res[k := res[k].(stage := stage)])
    ensures Start(res[k := res[k].(stage := stage)], |res|) == Start(res, |res|)
  {
    var res' := res[k := res[k].(stage := stage)];
    forall j | 0 <= j < |res'| ensures Follows(res', j) {
      assert Follows(res, j);
    }
  }

  /** A change to one not yet executed reservation and its slot leaves the others alone. */
  lemma StageKeeps(entries: nat, q: Queue, q': Queue, k: nat)
    requires Wf(entries, q) && q.pos <= k < |q.res|
    requires |q'.res| == |q.res| && q'.res == q.res[k := q.res[k].(stage := q'.res[k].stage)]
    requires |q'.fn| == |q'.cells| == entries
    requires forall i :: 0 <= i < entries && i != q.res[k].index ==> q'.fn[i] == q.fn[i] && q'.cells[i] == q.cells[i]
    requires (q'.counter, q'.live, q'.pos, q'.lim) == (q.counter, q.live, q.pos, q.lim)
    requires Stored(q'.fn, q'.cells, q'.res[k])
    ensures Wf(entries, q')
  {
    TiledFrame(entries, q.res, k, q'.res[k].stage);
    forall j | q'.pos <= j < |q'.res| ensures Stored(q'.fn, q'.cells, q'.res[j]) {
      assert Stored(q.fn, q.cells, q.res[j]);
    }
    assert q.res[k].index + q.res[k].size <= End(q);
  }

  lemma WriteEntryKeeps(entries: nat, q: Queue, index: nat, size: nat, op: OpId, k: nat)
    requires Wf(entries, q) && q.pos <= k < |q.res|
    requires q.res[k].index == index && q.res[k].size == size && q.res[k].op == Some(op) && q.res[k].stage == Reserved
    ensures Wf(entries, WriteEntry(q, index, size, op, k))
  {
    assert Stored(q.fn, q.cells, q.res[k]);
    StageKeeps(entries, q, WriteEntry(q, index, size, op, k), k);
  }

  lemma WritePadKeeps(entries: nat, q: Queue, index: nat, size: nat, k: nat)
    requires Wf(entries, q) && q.pos <= k < |q.res|
    requires q.res[k].index == index && q.res[k].size == size && q.res[k].op == None && q.res[k].stage == Reserved
    ensures Wf(entries, WritePad(q, index, size, k))
  {
    assert Stored(q.fn, q.cells, q.res[k]);
    StageKeeps(entries, q, WritePad(q, index, size, k), k);
  }

  lemma PublishKeeps(entries: nat, q: Queue, index: nat, f: Fn, k: nat)
    requires Wf(entries, q) && q.pos <= k < |q.res|
    requires q.res[k].index == index && FnOf(q.res[k]) == f && q.res[k].stage == Written
    ensures Wf(entries, Publish(q, index, f, k))
  {
    assert Stored(q.fn, q.cells, q.res[k]);
    StageKeeps(entries, q, Publish(q, index, f, k), k);
  }

  lemma LoadTodoKeeps(entries: nat, q: Queue)
    requires Wf(entries, q) && q.live
    ensures Wf(entries, LoadTodo(entries, q))
    ensures Min(q.counter, entries) == Start(q.res, LoadTodo(entries, q).lim)
  {
  }

  lemma CloseKeeps(entries: nat, q: Queue)
    requires Wf(entries, q) && q.live
    ensures Wf(entries, Close(entries, q))
    ensures Min(q.counter, entries) == Start(q.res, Close(entries, q).lim)
  {
  }

  lemma AdvanceKeeps(entries: nat, q: Queue)
    requires Wf(entries, q) && q.pos < q.lim && q.res[q.pos].stage == Published
    ensures Wf(entries, Advance(q))
    ensures Start(q.res, q.pos + 1) == Start(q.res, q.pos) + q.res[q.pos].size
  {
    assert Follows(q.res, q.pos);
    forall k | q.pos + 1 <= k < |q.res| ensures Stored(q.fn, q.cells, q.res[k]) {
      assert Stored(q.fn, q.cells, q.res[k]);
    }
  }

  lemma ClearSlotKeeps(entries: nat, q: Queue, i: nat)
    requires Wf(entries, q) && q.pos == |q.res| && i < entries
    ensures Wf(entries, ClearSlot(q, i))
  {
  }

  /** What an enqueuer may do to a queue behind the back of the thread that flushes it. */
  ghost predicate Extends(q: Queue, q': Queue) {
    && (q'.live, q'.pos, q'.lim) == (q.live, q.pos, q.lim)
    && |q'.fn| == |q.fn|
    && |q.res| <= |q'.res|
    && (forall k :: 0 <= k < |q.res| ==> (q'.res[k].index, q'.res[k].size) == (q.res[k].index, q.res[k].size))
    && (forall i :: 0 <= i < |q.fn| && q.fn[i] != Null ==> q'.fn[i] == q.fn[i])
    && (!q.live ==> |q'.res| == |q.res|)
    && (!q.live && q.pos == |q.res| ==> q'.fn == q.fn)
  }

  lemma ReserveExtends(entries: nat, q: Queue, t: Tid, op: OpId, req: nat)
    requires Wf(entries, q) && 1 <= req <= entries
    ensures Extends(q, Reserve(entries, q, t, op, req))
  {
  }

  lemma StoreExtends(entries: nat, q: Queue, index: nat, size: nat, op: OpId, k: nat)
    requires Wf(entries, q) && q.pos <= k < |q.res| && index < entries
    ensures Extends(q, WriteEntry(q, index, size, op, k)) && Extends(q, WritePad(q, index, size, k))
  {
  }

  lemma PublishExtends(entries: nat, q: Queue, index: nat, f: Fn, k: nat)
    requires Wf(entries, q) && q.pos <= k < |q.res|
    requires q.res[k].index == index && q.res[k].stage == Written
    ensures Extends(q, Publish(q, index, f, k))
  {
    assert Stored(q.fn, q.cells, q.res[k]);
  }

  // ---------- consequences of the tiling ----------

  /** A visible pointer at the flush position is the entry the reservation stored. */
  lemma VisibleEntry(entries: nat, q: Queue)
    requires Wf(entries, q) && q.pos < |q.res|
    requires q.fn[q.res[q.pos].index] != Null
    ensures q.res[q.pos].stage == Published
    ensures q.fn[Start(q.res, q.pos)] == FnOf(q.res[q.pos])
    ensures q.cells[Start(q.res, q.pos)].size == q.res[q.pos].size
    ensures q.res[q.pos].op.Some? ==> q.cells[Start(q.res, q.pos)].op == q.res[q.pos].op.value
  {
    assert Stored(q.fn, q.cells, q.res[q.pos]) && Follows(q.res, q.pos);
  }

  /** Because each begins where its predecessor ends, different reservations never share a slot. */
  lemma {:induction false} ReservationsDisjoint(res: seq<Reservation>, j: nat, k: nat, i: nat)
    requires forall m :: 0 <= m < |res| ==> Follows(res, m)
    requires forall m :: 0 <= m < |res| ==> 1 <= res[m].size
    requires j < |res| && res[j].index <= i < res[j].index + res[j].size
    requires k < |res| && res[k].index <= i < res[k].index + res[k].size
    ensures j == k
  {
    assert Follows(res, j) && Follows(res, k);
    if j < k {
      StartMonotone(res, j + 1, k);
    } else if k < j {
      StartMonotone(res, k + 1, j);
    }
  }

  /** Every slot below the counter (capped at ENTRIES) of a live queue belongs to a reservation. */
  lemma {:induction false} SlotCovered(res: seq<Reservation>, n: nat, i: nat) returns (k: nat)
    requires n <= |res| && forall j :: 0 <= j < |res| ==> Follows(res, j)
    requires i < Start(res, n)
    ensures k < n && res[k].index <= i < res[k].index + res[k].size
    decreases n
  {
    k := n - 1;
    if i < res[n - 1].index {
      assert Follows(res, n - 1);
      k := SlotCovered(res, n - 1, i);
    }
  }

  /** A period holds at most ENTRIES reservations, which bounds the work of one flush. */
  lemma {:induction false} StartAtLeast(res: seq<Reservation>, k: nat)
    requires k <= |res|
    requires forall j :: 0 <= j < |res| ==> Follows(res, j)
    requires forall j :: 0 <= j < |res| ==> 1 <= res[j].size
    ensures Start(res, k) >= k
  {
    if k > 0 {
      StartAtLeast(res, k - 1);
      assert Follows(res, k - 1);
    }
  }

  /** Positions before another are at smaller slots, and only they are. */
  lemma {:induction false} StartMonotone(res: seq<Reservation>, j: nat, k: nat)
    requires j <= k <= |res|
    requires forall i :: 0 <= i < |res| ==> Follows(res, i)
    requires forall i :: 0 <= i < |res| ==> 1 <= res[i].size
    ensures j < k ==> Start(res, j) < Start(res, k)
    decreases k - j
  {
    if j < k {
      StartMonotone(res, j, k - 1);
      assert Follows(res, k - 1);
    }
  }
}
