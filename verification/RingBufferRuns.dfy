/** What holds of a ring buffer over every sequence of operations, and what goes wrong on a
    region that is larger than the ring. */
module RingBufferRuns {
  import opened ByteRing
  import opened MirroredMemory
  import opened RingBuffer

  /** An operation on a ring. `OpRecv` is a kernel receive into a ring made roomy first, which
      delivers as many of the bytes as there is room for; `OpSend` is a kernel send that takes
      at most `k` bytes. */
  datatype Op =
    | OpWrite(bytes: seq<Byte>) | OpWriteByte(b: Byte) | OpRecv(bytes: seq<Byte>) | OpReadFrom(chunks: seq<seq<Byte>>)
    | OpRead(k: nat) | OpNext(n: int) | OpDiscard(k: nat) | OpReadByte | OpSend(k: nat) | OpWriteTo(k: nat, failed: bool)
    | OpPeek(n: int) | OpBytes | OpGrow(k: nat) | OpReset

  /** The bytes returned or offered, the count returned, and whether there was no error. */
  datatype Out = Out(bytes: seq<Byte>, count: nat, ok: bool)

  const OK := Out([], 0, true)

  /** When an operation can be asked for, as its own contract says: `Next` of everything needs
      a region, `Grow` a larger size, `ReadFrom` into an empty ring a first read that delivers
      something, and `WriteTo` from a full ring a writer that takes something. */
  predicate Meets(rb: Ring, op: Op, page: nat)
    requires page > 0
  {
    match op
    case OpReadFrom(chunks) => chunks != [] && !Stuck(rb, chunks)
    case OpNext(n) => n > 0 || rb.cap > 0
    case OpWriteTo(k, _) => k <= |rb.data| && !(|rb.data| == rb.cap > 0 && k == 0)
    case OpGrow(k) => AdjustBufferSize(k, page) > |rb.data|
    case _ => true
  }

  /** The same operations on a byte sequence with a capacity. */
  function Spec(rb: Ring, op: Op, page: nat): (r: (Ring, Out))
    requires page > 0 && rb.Ok() && Meets(rb, op, page)
    ensures r.0.Ok()
  {
    var data := rb.data;
    match op
    case OpWrite(bytes) => (Written(rb, bytes, page), OK.(count := |bytes|))
    case OpWriteByte(b) => (Written(rb, [b], page), OK)
    case OpRecv(bytes) => (Filled(Roomy(rb, page), Accepted(rb, bytes, page)), OK)
    case OpReadFrom(chunks) => (ReadAll(rb, chunks, page).0, OK.(count := |ReadAll(rb, chunks, page).1|))
    case OpRead(k) => (Dropped(rb, Min(|data|, k)), Out(data[..Min(|data|, k)], Min(|data|, k), k == 0 || data != []))
    case OpNext(n) =>
      if n > |data| then (rb, OK.(ok := false))
      else if n <= 0 then (Dropped(rb, |data|), OK.(bytes := data)) else (Dropped(rb, n), OK.(bytes := data[..n]))
    case OpDiscard(k) => (Dropped(rb, Min(k, |data|)), OK.(count := Min(k, |data|)))
    case OpReadByte => if data == [] then (rb, OK.(ok := false)) else (Dropped(rb, 1), OK.(bytes := [data[0]]))
    case OpSend(k) => (Dropped(rb, Min(k, |data|)), OK.(bytes := data[..Min(k, |data|)]))
    case OpWriteTo(k, failed) => (Dropped(rb, k), Out(data, k, data != [] && !failed && k == |data|))
    case OpPeek(n) => (rb, OK.(bytes := if n <= 0 then data else data[..Min(n, |data|)]))
    case OpBytes => (rb, OK.(bytes := data))
    case OpGrow(k) => (Grown(rb, k, page), OK)
    case OpReset => (Ring([], rb.cap), OK)
  }

  /** Every operation of the sequence can be asked for when its turn comes. */
  predicate AllMeet(rb: Ring, ops: seq<Op>, page: nat)
    requires page > 0 && rb.Ok()
    decreases |ops|
  {
    ops != [] ==> Meets(rb, ops[0], page) && AllMeet(Spec(rb, ops[0], page).0, ops[1..], page)
  }

  function SpecRun(rb: Ring, ops: seq<Op>, page: nat): (r: (Ring, seq<Out>))
    requires page > 0 && rb.Ok() && AllMeet(rb, ops, page)
    ensures r.0.Ok()
    decreases |ops|
  {
    if ops == [] then (rb, [])
    else
      var (rb', out) := Spec(rb, ops[0], page);
      var (end, outs) := SpecRun(rb', ops[1..], page);
      (end, [out] + outs)
  }

  // ---------------------------------------------------------------- single operations

  method ReadUpTo(rb: RingBuffer, k: nat) returns (out: Out)
    requires rb.Valid()
    modifies rb`isEmpty, rb`r, rb`w
    ensures rb.Valid() && (rb.Abs(), out) == Spec(old(rb.Abs()), OpRead(k), rb.page)
  {
    var buffer := new Byte[k];
    var n, ok := rb.Read(buffer);
    out := Out(buffer[..n], n, ok);
  }

  /** read.go: room first, then the kernel fills it and the worker advances. */
  method Recv(rb: RingBuffer, bytes: seq<Byte>)
    requires rb.Valid()
    modifies rb, rb.Region()
    ensures rb.Valid() && fresh(rb.Region() - old(rb.Region()))
    ensures rb.Abs() == Spec(old(rb.Abs()), OpRecv(bytes), rb.page).0
  {
    rb.GrowIfUnsufficientFreeSpace(0);
    var n := Min(|bytes|, rb.Available());
    assert bytes[..n] == Accepted(old(rb.Abs()), bytes, rb.page);
    KernelFill(rb, bytes[..n]);
  }

  method KernelFill(rb: RingBuffer, bytes: seq<Byte>)
    requires rb.Valid() && |bytes| <= rb.Available()
    modifies rb`isEmpty, rb`w, rb.Region()
    ensures rb.Valid() && rb.Abs() == Filled(old(rb.Abs()), bytes)
  {
    rb.Deposit(bytes);
    rb.AdvanceWrite(|bytes|);
  }

  method Send(rb: RingBuffer, k: nat) returns (out: Out)
    requires rb.Valid()
    modifies rb`isEmpty, rb`r, rb`w
    ensures rb.Valid() && (rb.Abs(), out) == Spec(old(rb.Abs()), OpSend(k), rb.page)
  {
    var n := Min(k, rb.Buffered());
    var bytes := rb.Peek(n);
    if n == 0 { bytes := []; }
    rb.AdvanceRead(n);
    out := OK.(bytes := bytes);
  }

  function Zeros(n: nat): (z: seq<nat>)
    ensures |z| == n
  {
    seq(n, _ => 0)
  }

  lemma {:induction false} EndsExactly(rb: Ring, chunks: seq<seq<Byte>>, page: nat)
    requires page > 0 && rb.Ok()
    ensures EndsExact(rb, chunks, Zeros(|chunks|), page, true)
    decreases |chunks|
  {
    if chunks != [] {
      assert Zeros(|chunks|)[1..] == Zeros(|chunks| - 1);
      EndsExactly(Filled(Roomy(rb, page), Accepted(rb, chunks[0], page)), chunks[1..], page);
    }
  }

  method Take(rb: RingBuffer, op: Op) returns (out: Out)
    requires rb.Valid() && Meets(rb.Abs(), op, rb.page)
    requires op.OpNext? || op.OpDiscard? || op.OpReadByte? || op.OpWriteTo?
    modifies rb`isEmpty, rb`r, rb`w
    ensures rb.Valid() && (rb.Abs(), out) == Spec(old(rb.Abs()), op, rb.page)
  {
    ghost var data := rb.Abs().data;
    assert data[..|data|] == data && data[|data|..] == [];
    match op {
      case OpNext(n) =>
        var bytes, ok := rb.Next(n);
        out := Out(bytes, 0, ok);
      case OpDiscard(k) =>
        var n := rb.Discard(k);
        out := OK.(count := n);
      case OpReadByte =>
        var b, ok := rb.ReadByte();
        out := Out(if ok then [b] else [], 0, ok);
      case OpWriteTo(k, failed) =>
        var offered, n, status := rb.WriteTo(k, failed);
        out := Out(offered, n, status.Done?);
    }
  }

  method Drop(rb: RingBuffer, op: Op) returns (out: Out)
    requires rb.Valid() && (op.OpRead? || op.OpSend? || op.OpReset?)
    modifies rb`isEmpty, rb`r, rb`w
    ensures rb.Valid() && (rb.Abs(), out) == Spec(old(rb.Abs()), op, rb.page)
  {
    if op.OpRead? {
      out := ReadUpTo(rb, op.k);
    } else if op.OpSend? {
      out := Send(rb, op.k);
    } else {
      rb.Reset();
      out := OK;
    }
  }

  method Look(rb: RingBuffer, op: Op) returns (out: Out)
    requires rb.Valid() && (op.OpPeek? || op.OpBytes?)
    ensures (rb.Abs(), out) == Spec(rb.Abs(), op, rb.page)
  {
    var bytes;
    if op.OpPeek? { bytes := rb.Peek(op.n); } else { bytes := rb.Bytes(); }
    assert rb.Abs().data[..|rb.Abs().data|] == rb.Abs().data;
    out := OK.(bytes := bytes);
  }

  method Fill(rb: RingBuffer, op: Op) returns (out: Out)
    requires rb.Valid() && Meets(rb.Abs(), op, rb.page)
    requires Fills(op)
    modifies rb, rb.Region()
    ensures rb.Valid() && fresh(rb.Region() - old(rb.Region()))
    ensures (rb.Abs(), out) == Spec(old(rb.Abs()), op, rb.page)
  {
    out := OK;
    match op {
      case OpWrite(bytes) =>
        var n := rb.Write(bytes, 0);
        out := OK.(count := n);
      case OpWriteByte(b) => rb.WriteByte(b, 0);
      case OpRecv(bytes) => Recv(rb, bytes);
      case OpReadFrom(chunks) =>
        EndsExactly(rb.Abs(), chunks, rb.page);
        var n := rb.ReadFrom(chunks, Zeros(|chunks|));
        out := OK.(count := n);
      case OpGrow(k) => rb.GrowFromPool(k, 0);
    }
  }

  predicate Fills(op: Op) {
    op.OpWrite? || op.OpWriteByte? || op.OpRecv? || op.OpReadFrom? || op.OpGrow?
  }

  method Draw(rb: RingBuffer, op: Op) returns (out: Out)
    requires rb.Valid() && Meets(rb.Abs(), op, rb.page) && !Fills(op)
    modifies rb`isEmpty, rb`r, rb`w
    ensures rb.Valid() && (rb.Abs(), out) == Spec(old(rb.Abs()), op, rb.page)
  {
    if op.OpNext? || op.OpDiscard? || op.OpReadByte? || op.OpWriteTo? {
      out := Take(rb, op);
    } else if op.OpPeek? || op.OpBytes? {
      out := Look(rb, op);
    } else {
      out := Drop(rb, op);
    }
  }

  method Apply(rb: RingBuffer, op: Op) returns (out: Out)
    requires rb.Valid() && Meets(rb.Abs(), op, rb.page)
    modifies rb, rb.Region()
    ensures rb.Valid() && fresh(rb.Region() - old(rb.Region()))
    ensures (rb.Abs(), out) == Spec(old(rb.Abs()), op, rb.page)
  {
    if Fills(op) { out := Fill(rb, op); } else { out := Draw(rb, op); }
  }

  /** Any sequence of operations on a ring behaves like the same sequence on a byte sequence
      with a capacity: same results, same contents, across wrap-around, full rings and growth to
      regions of the size asked for. */
  method Drive(rb: RingBuffer, ops: seq<Op>) returns (outs: seq<Out>)
    requires rb.Valid() && AllMeet(rb.Abs(), ops, rb.page)
    modifies rb, rb.Region()
    ensures rb.Valid() && fresh(rb.Region() - old(rb.Region()))
    ensures (rb.Abs(), outs) == SpecRun(old(rb.Abs()), ops, rb.page)
    decreases |ops|
  {
    if ops == [] { return []; }
    var out := Apply(rb, ops[0]);
    var rest := Drive(rb, ops[1..]);
    outs := [out] + rest;
  }

  // ---------------------------------------------------------------- why the region must have the ring's size

  /** A ring of more than one byte on any region that is larger than itself: write as much as it holds, read one byte,
      write one byte, read everything. The last byte read is not the byte written. */
  method LargerRegionLosesAByte(size: nat, page: nat, region: VirtualMem) returns (written: Byte, got: Byte)
    requires page > 0 && region.Valid() && 1 < AdjustBufferSize(size, page) < region.size
    modifies region.mem
    ensures written != got
  {
    var rb := new RingBuffer(size, page, region);
    FillAndReadOne(rb);
    written := region.mem[rb.Size] + 1;
    got := WriteOneAndReadAll(rb, written);
  }

  method FillAndReadOne(rb: RingBuffer)
    requires rb.Shape() && rb.vm != null && 1 < rb.Size < rb.vm.size && rb.Positions() == (0, 0, true)
    modifies rb, rb.Region()
    ensures rb.Shape() && rb.vm == old(rb.vm) && rb.Size == old(rb.Size) && rb.Positions() == (1, 0, false)
  {
    var _ := rb.Write(seq(rb.Size, _ => 0), 0);
    var one := new Byte[1];
    var _, _ := rb.Read(one);
  }

  /** The last byte read lies behind the ring, where nothing was written. */
  method WriteOneAndReadAll(rb: RingBuffer, b: Byte) returns (last: Byte)
    requires rb.Shape() && rb.vm != null && 1 < rb.Size < rb.vm.size && rb.Positions() == (1, 0, false)
    modifies rb, rb.Region()
    ensures last == old(rb.vm.mem[rb.Size])
  {
    var _ := rb.Write([b], 0);
    var all := new Byte[rb.Size];
    ViewAt(rb.vm.mem[..], 1, rb.Size);
    var n, _ := rb.Read(all);
    last := all[n - 1];
  }
}
