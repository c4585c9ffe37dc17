/**
 * How a delegated call is laid out in a queue's byte buffer: a four byte size field, the
 * arguments one after the other without gaps, and the promise last. Entries take whole
 * slots of ENTRY_SIZE bytes.
 */
module Marshalling {

  type Byte = x: int | 0 <= x < 256

  /** sizeof(unsigned), the size field at the head of an entry. */
  const HEADER: nat := 4

  /** sumsizes over the list of parameter types, each given by its size. */
  function SumSizes(sizes: seq<nat>): nat {
    if sizes == [] then 0 else sizes[0] + SumSizes(sizes[1..])
  }

  function SizesOf(args: seq<seq<Byte>>): seq<nat> {
    if args == [] then [] else [|args[0]|] + SizesOf(args[1..])
  }

  /** The bytes forwardall writes. */
  function Concat(args: seq<seq<Byte>>): seq<Byte> {
    if args == [] then [] else args[0] + Concat(args[1..])
  }

  function Aligned(size: nat): nat {
    if size == 0 then 1 else size
  }

  /** The number of slots an entry needs. */
  function ReqEntries(slotSize: nat, payload: nat): nat
    requires slotSize > 0
  {
    (Aligned(payload + HEADER) + slotSize - 1) / slotSize
  }

  /** The slots of an entry are exactly enough for its size field and its arguments. */
  lemma SlotsSuffice(slotSize: nat, payload: nat)
    requires slotSize > 0
    ensures 1 <= ReqEntries(slotSize, payload)
    ensures HEADER + payload <= ReqEntries(slotSize, payload) * slotSize
    ensures (ReqEntries(slotSize, payload) - 1) * slotSize < HEADER + payload
  {
    var n := payload + HEADER + slotSize - 1;
    DivisionBounds(n, slotSize);
  }

  lemma DivisionBounds(n: nat, d: nat)
    requires d > 0
    ensures n / d * d <= n < (n / d + 1) * d
  {
  }

  /** What the recursion over the sizes adds up is what the recursion over the arguments writes. */
  lemma {:induction false} ConcatSize(args: seq<seq<Byte>>)
    ensures |Concat(args)| == SumSizes(SizesOf(args))
  {
    if args != [] {
      ConcatSize(args[1..]);
      assert SizesOf(args)[1..] == SizesOf(args[1..]);
    }
  }

  lemma {:induction false} ConcatSnoc(args: seq<seq<Byte>>, last: seq<Byte>)
    ensures Concat(args + [last]) == Concat(args) + last
  {
    if args == [] {
      assert (args + [last])[1..] == [];
      assert Concat([]) == [];
    } else {
      ConcatSnoc(args[1..], last);
      assert (args + [last])[1..] == args[1..] + [last];
    }
  }

  /** A buffer with some bytes written over it. */
  function Splice(buf: seq<Byte>, at: nat, bytes: seq<Byte>): seq<Byte>
    requires at + |bytes| <= |buf|
  {
    buf[..at] + bytes + buf[at + |bytes|..]
  }

  /** bytes can be read back at position at. */
  ghost predicate Holds(buf: seq<Byte>, at: nat, bytes: seq<Byte>) {
    at + |bytes| <= |buf| && buf[at..at + |bytes|] == bytes
  }

  lemma SpliceHolds(buf: seq<Byte>, at: nat, bytes: seq<Byte>)
    requires at + |bytes| <= |buf|
    ensures |Splice(buf, at, bytes)| == |buf|
    ensures Holds(Splice(buf, at, bytes), at, bytes)
  {
  }

  /** Writing leaves alone what lies entirely before it. */
  lemma SpliceKeeps(buf: seq<Byte>, at: nat, bytes: seq<Byte>, lo: nat, kept: seq<Byte>)
    requires at + |bytes| <= |buf| && Holds(buf, lo, kept) && lo + |kept| <= at
    ensures Holds(Splice(buf, at, bytes), lo, kept)
  {
    var after := Splice(buf, at, bytes);
    assert after[lo..lo + |kept|] == buf[lo..lo + |kept|];
  }

  lemma SpliceTwice(buf: seq<Byte>, at: nat, a: seq<Byte>, b: seq<Byte>)
    requires at + |a| + |b| <= |buf|
    ensures Splice(Splice(buf, at, a), at + |a|, b) == Splice(buf, at, a + b)
  {
  }

  lemma HoldsParts(buf: seq<Byte>, at: nat, a: seq<Byte>, b: seq<Byte>)
    requires Holds(buf, at, a + b)
    ensures Holds(buf, at, a) && Holds(buf, at + |a|, b)
  {
    assert buf[at..at + |a|] == (a + b)[..|a|];
    assert buf[at + |a|..at + |a| + |b|] == (a + b)[|a|..];
  }

  // ---------- the size field ----------

  function Le32(n: nat): (bytes: seq<Byte>)
    ensures |bytes| == HEADER
  {
    [n % 256, n / 256 % 256, n / 65536 % 256, n / 16777216 % 256]
  }

  function FromLe32(bytes: seq<Byte>): nat
    requires |bytes| == HEADER
  {
    bytes[0] as int + 256 * (bytes[1] as int) + 65536 * (bytes[2] as int) + 16777216 * (bytes[3] as int)
  }

  lemma SizeFieldRoundTrip(n: nat)
    requires n < 0x1_0000_0000
    ensures FromLe32(Le32(n)) == n
  {
    assert n / 65536 == n / 256 / 256 && n / 16777216 == n / 65536 / 256;
    assert n / 16777216 < 256;
  }

  // ---------- the wrapper functions ----------

  /**
   * The recursive unpackers: one argument is taken off the buffer and passed behind those
   * already unpacked, until the type list is empty; the pointer is then at the promise.
   */
  function Unpack(buf: seq<Byte>, at: nat, sizes: seq<nat>, unpacked: seq<seq<Byte>>): (r: (seq<seq<Byte>>, nat))
    decreases |sizes|
  {
    if sizes == [] then (unpacked, at)
    else if at + sizes[0] > |buf| then (unpacked, at)
    else Unpack(buf, at + sizes[0], sizes[1..], unpacked + [buf[at..at + sizes[0]]])
  }

  /** Unpacking what forwardall wrote gives the same arguments in the same order and ends behind them. */
  lemma {:induction false} UnpackRoundTrip(buf: seq<Byte>, at: nat, args: seq<seq<Byte>>, unpacked: seq<seq<Byte>>)
    requires Holds(buf, at, Concat(args))
    ensures Unpack(buf, at, SizesOf(args), unpacked) == (unpacked + args, at + |Concat(args)|)
    decreases |args|
  {
    if args == [] {
      assert unpacked + args == unpacked;
    } else {
      HoldsParts(buf, at, args[0], Concat(args[1..]));
      UnpackRoundTrip(buf, at + |args[0]|, args[1..], unpacked + [args[0]]);
      assert SizesOf(args)[1..] == SizesOf(args[1..]);
      assert unpacked + [args[0]] + args[1..] == unpacked + args;
    }
  }

  /** The pointer the unpackers leave behind is the promise, the last thing that was written. */
  lemma PromiseFollows(buf: seq<Byte>, at: nat, args: seq<seq<Byte>>, promise: seq<Byte>)
    requires Holds(buf, at, Concat(args + [promise]))
    ensures Unpack(buf, at, SizesOf(args), []).0 == args
    ensures Holds(buf, Unpack(buf, at, SizesOf(args), []).1, promise)
  {
    ConcatSnoc(args, promise);
    HoldsParts(buf, at, Concat(args), promise);
    UnpackRoundTrip(buf, at, args, []);
  }

  /** forwardall: placement of one argument after the other. */
  method ForwardAll(buffer: array<Byte>, offset: nat, args: seq<seq<Byte>>)
    requires offset + |Concat(args)| <= buffer.Length
    modifies buffer
    ensures buffer[..] == Splice(old(buffer[..]), offset, Concat(args))
    decreases |args|
  {
    if args != [] {
      ghost var was := buffer[..];
      Store(buffer, offset, args[0]);
      ForwardAll(buffer, offset + |args[0]|, args[1..]);
      SpliceTwice(was, offset, args[0], Concat(args[1..]));
    }
  }

  lemma StoreOne(now: seq<Byte>, was: seq<Byte>, at: nat, bytes: seq<Byte>, i: nat)
    requires at + |bytes| <= |was| && i < |bytes| && now == Splice(was, at, bytes[..i])
    ensures now[at + i := bytes[i]] == Splice(was, at, bytes[..i + 1])
  {
    assert bytes[..i + 1] == bytes[..i] + [bytes[i]];
  }

  /** Copies one object into the buffer. */
  method Store(buffer: array<Byte>, at: nat, bytes: seq<Byte>)
    requires at + |bytes| <= buffer.Length
    modifies buffer
    ensures buffer[..] == Splice(old(buffer[..]), at, bytes)
  {
    ghost var was := buffer[..];
    var i := 0;
    while i < |bytes|
      invariant i <= |bytes|
      invariant buffer[..] == Splice(was, at, bytes[..i])
    {
      StoreOne(buffer[..], was, at, bytes, i);
      buffer[at + i] := bytes[i];
      i := i + 1;
    }
    assert bytes[..i] == bytes;
  }
}
