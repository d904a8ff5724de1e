/** pkg/buffer/magicring/ringbuffer.go: a ring buffer over memory that is mapped twice
    in a row, so that data which wraps around is still one contiguous slice. */
module RingBuffer {
  import opened Arithmetic
  import opened ByteRing
  import opened MirroredMemory

  /** An index advanced modulo the size of the ring. */
  method Wrapped(x: nat, size: nat) returns (k: nat)
    requires x < 2 * size
    ensures k == if x < size then x else x - size
  {
    WrapOnce(x, size);
    k := x % size;
  }

  function Min(a: nat, b: nat): (m: nat)
    ensures m <= a && m <= b && (m == a || m == b)
  {
    if a < b then a else b
  }

  /** A read position moved backwards is where it was only if it was at the beginning and moved
      by whole rounds. */
  lemma BackToStart(r: nat, n: int, size: nat)
    requires r < size && n < 0
    ensures GoMod(r + n, size) == r <==> r == 0 && (-n) % size == 0
    ensures GoMod(r + n, size) < size
  {
    if r + n >= 0 { WrapOnce(r + n, size); }
  }

  /** Go's remainder, which takes the sign of the dividend. */
  function GoMod(a: int, b: int): int
    requires b > 0
  {
    if a >= 0 then a % b else -((-a) % b)
  }

  class RingBuffer {
    const page: nat
    var vm: VirtualMem?
    var Size: nat
    var r: int
    var w: int
    var isEmpty: bool

    /** The memory the ring owns. */
    ghost function Region(): set<object>
      reads this
    {
      if vm == null then {} else {vm.mem}
    }

    /** An empty ring has r == w; a ring that was created with size 0 has no region yet, any
        other has one that is large enough. */
    ghost predicate Shape()
      reads this
    {
      && page > 0
      && (isEmpty ==> r == w)
      && if vm == null then Size == 0 && r == 0 && w == 0 && isEmpty
         else vm.Valid() && Size <= vm.size && 0 <= r < Size && 0 <= w < Size
    }

    /** The ring wraps where its region repeats. */
    ghost predicate Valid()
      reads this
    {
      Shape() && (vm != null ==> Size == vm.size)
    }

    /** What is put into the ring is what it shows: it is in order, or its data starts at the
        beginning of a region that is too large. */
    ghost predicate Straight()
      reads this
    {
      Shape() && (vm != null ==> Size == vm.size || r == 0)
    }

    ghost function Positions(): (int, int, bool)
      reads this
    {
      (r, w, isEmpty)
    }

    /** ringbuffer.go:192-206 */
    function Buffered(): int
      reads this
    {
      if r == w then (if isEmpty then 0 else Size)
      else if w > r then w - r
      else Size - r + w
    }

    /** ringbuffer.go:175-189 */
    function Available(): int
      reads this
    {
      if r == w then (if isEmpty then Size else 0)
      else if w < r then r - w
      else Size - w + r
    }

    predicate IsFull()
      reads this
    {
      r == w && !isEmpty
    }

    /** The byte sequence and capacity this ring stands for. */
    ghost function Abs(): (a: Ring)
      requires Shape()
      reads this, Region()
      ensures a.Ok() && |a.data| == Buffered() && a.cap == Size
      ensures Available() + Buffered() == Size && Available() == a.Free()
      ensures IsFull() <==> Size > 0 && |a.data| == Size
      ensures isEmpty <==> a.data == []
    {
      Ring(if vm == null then [] else vm.Slice(r, Buffered()), Size)
    }

    /** The `n` bytes of memory behind the data. */
    ghost function Behind(n: nat): (s: seq<Byte>)
      requires Shape() && n <= Available()
      reads this, Region()
      ensures |s| == n
    {
      if vm == null then [] else vm.Slice(w, n)
    }

    /** The ring stands for `n` bytes of memory `m`. */
    lemma AbsIs(m: seq<Byte>, n: nat)
      requires Shape() && vm != null && vm.mem[..] == m && n == Buffered()
      ensures Abs() == Ring(View(m, r, n), Size) && n == Length(Size, r, w, isEmpty)
    {
    }

    lemma BehindIs(m: seq<Byte>, n: nat)
      requires Shape() && vm != null && vm.mem[..] == m && n <= Available()
      ensures Behind(n) == View(m, w, n) && Length(Size, r, w, isEmpty) + n <= Size
    {
    }

    /** Skipping `n` bytes moves the read position onto the rest of the data. */
    lemma Skipping(n: nat)
      requires Valid() && vm != null && n <= Buffered() && (n > 0 || r != w)
      ensures var r' := Ahead(r, n, Size);
              && (r' == w <==> n == Buffered())
              && (r' != w ==> Length(Size, r', w, isEmpty) == Buffered() - n)
              && View(vm.mem[..], r', Buffered() - n) == Abs().data[n..]
    {
      var m := vm.mem[..];
      AbsIs(m, Buffered());
      DropView(m, r, w, isEmpty, n);
    }

    /** Moving the write position forward makes the bytes behind the data part of it. */
    lemma Filling(m: seq<Byte>, b: nat, n: nat)
      requires Straight() && vm != null && vm.mem[..] == m && b == Buffered() && 0 < n <= Available()
      ensures Length(Size, r, Ahead(w, n, Size), false) == b + n
      ensures View(m, r, b + n) == Abs().data + Behind(n)
    {
      AbsIs(m, b);
      BehindIs(m, n);
      FillView(m, Size, r, w, isEmpty, n);
    }

    /** Memory that agrees everywhere but on the `n` bytes behind the data holds the same data. */
    lemma Elsewhere(m: seq<Byte>, m': seq<Byte>, n: nat)
      requires Straight() && vm != null && n <= Available() && |m| == |m'| == vm.size
      requires View(m, Ahead(w, n, |m|), |m| - n) == View(m', Ahead(w, n, |m|), |m| - n)
      ensures View(m, r, Buffered()) == View(m', r, Buffered())
    {
      SameData(m, m', Size, r, w, isEmpty, n);
    }

    /** `NewMagicBuffer`; `region` is what `virtualmem.Get` answers. The new ring is in order
        exactly if the region has the very size asked for. */
    constructor (size: nat, page: nat, region: VirtualMem?)
      requires page > 0
      requires size > 0 ==> region != null && region.Valid() && AdjustBufferSize(size, page) <= region.size
      ensures Shape() && this.page == page && Size == AdjustBufferSize(size, page) && Positions() == (0, 0, true)
      ensures vm == if size == 0 then null else region
      ensures Valid() <==> (size > 0 ==> region.size == AdjustBufferSize(size, page))
      ensures Abs() == Ring([], AdjustBufferSize(size, page))
    {
      this.page := page;
      isEmpty := true;
      r, w := 0, 0;
      Size := 0;
      vm := null;
      if size != 0 {
        vm := region;
        Size := AdjustBufferSize(size, page);
      }
    }

    method Reset()
      requires vm != null ==> Size > 0
      modifies this`isEmpty, this`r, this`w
      ensures Positions() == (0, 0, true)
      ensures old(Valid()) ==> Valid() && Abs() == Ring([], Size)
    {
      isEmpty := true;
      r, w := 0, 0;
    }

    /** Write `bytes` behind the data without making them part of it: what the kernel
        does to a receive buffer. */
    method Deposit(bytes: seq<Byte>)
      requires Shape() && |bytes| <= Available()
      modifies Region()
      ensures old(Straight()) ==> Straight() && Abs() == old(Abs()) && Behind(|bytes|) == bytes
      ensures vm != null && w + |bytes| <= vm.size ==>
                vm.mem[..] == old(vm.mem[..w]) + bytes + old(vm.mem[w + |bytes|..])
    {
      if vm != null {
        ghost var m, b := vm.mem[..], Buffered();
        AbsIs(m, b);
        vm.Store(w, bytes);
        ghost var m' := vm.mem[..];
        AbsIs(m', b);
        BehindIs(m', |bytes|);
        if Straight() { Elsewhere(m, m', |bytes|); }
      }
    }

    method AdvanceWrite(n: nat)
      requires Valid() && n <= Available()
      modifies this`isEmpty, this`w
      ensures Valid() && Abs() == Filled(old(Abs()), old(Behind(n)))
    {
      if n == 0 { return; }
      ghost var m, b := vm.mem[..], Buffered();
      Filling(m, b, n);
      isEmpty := false;
      if w + n >= Size {
        w := w + n - Size;
      } else {
        w := w + n;
      }
      AbsIs(m, b + n);
    }

    method AdvanceRead(n: nat)
      requires Valid() && n <= Buffered()
      modifies this`isEmpty, this`r, this`w
      ensures Valid() && Abs() == Dropped(old(Abs()), n)
    {
      if n == 0 { return; }
      ghost var m, b := vm.mem[..], Buffered();
      Skipping(n);
      MoveRead(n);
      if r == w { Reset(); } else { AbsIs(m, b - n); }
    }

    /** The read position after `n` bytes; the ring is not consistent if that is all of them. */
    method MoveRead(n: nat)
      requires Valid() && 0 < n <= Buffered()
      modifies this`r
      ensures r == Ahead(old(r), n, Size)
    {
      if r + n >= Size {
        r := r + n - Size;
      } else {
        r := r + n;
      }
    }

    /** Drop `n` bytes as `Read` and `WriteTo` do, with a remainder instead of a comparison. */
    method Consume(n: nat)
      requires Shape() && n <= Buffered() && !isEmpty
      modifies this`isEmpty, this`r, this`w
      ensures Shape() && Positions() == Taken(Size, old(r), old(w), n)
      ensures old(Valid()) ==> Valid()
      ensures old(Valid()) && n == 0 && old(IsFull()) ==> Abs() == Ring([], Size)
      ensures old(Valid()) && !(n == 0 && old(IsFull())) ==> Abs() == Dropped(old(Abs()), n)
    {
      ghost var m, b := vm.mem[..], Buffered();
      if Size == vm.size && (n > 0 || r != w) { Skipping(n); }
      TakePositions(n);
      if Size == vm.size && !isEmpty { AbsIs(m, b - n); }
    }

    method TakePositions(n: nat)
      requires Shape() && n <= Buffered() && !isEmpty
      modifies this`isEmpty, this`r, this`w
      ensures Shape() && Positions() == Taken(Size, old(r), old(w), n)
    {
      r := Wrapped(r + n, Size);
      if r == w { Reset(); }
    }

    /** On a region that is too large the bytes come from where the memory is, not from where
        they were written. */
    method Read(buffer: array<Byte>) returns (n: nat, ok: bool)
      requires Shape() && buffer !in Region()
      modifies this`isEmpty, this`r, this`w, buffer
      ensures ok <==> buffer.Length == 0 || !old(isEmpty)
      ensures n == Min(old(Buffered()), buffer.Length) && buffer[n..] == old(buffer[n..])
      ensures old(Valid()) ==> Valid() && buffer[..n] == old(Abs()).data[..n] && Abs() == Dropped(old(Abs()), n)
      ensures Shape() && (n > 0 ==> Positions() == Taken(Size, old(r), old(w), n) && buffer[..n] == old(vm.Slice(r, n)))
    {
      if buffer.Length == 0 { return 0, true; }
      if isEmpty { return 0, false; }
      n := Buffered();
      if n > buffer.Length { n := buffer.Length; }
      var bytes := vm.Slice(r, n);
      forall i | 0 <= i < n { buffer[i] := bytes[i]; }
      assert buffer[..n] == bytes;
      ViewTake(old(vm.mem[..]), old(r), Buffered(), n);
      assert old(Valid()) ==> bytes == old(Abs()).data[..n];
      assert buffer[n..] == old(buffer[n..]);
      Consume(n);
      ok := true;
    }

    /** `Read` into the slice of a doubly mapped region, which is 2 * size bytes long. */
    method ReadInto(region: VirtualMem)
      requires Shape() && region.Valid() && region.mem !in Region()
      modifies this`isEmpty, this`r, this`w, region.mem
      ensures Shape() && (old(isEmpty) ==> isEmpty)
      ensures old(Buffered()) <= region.size ==> region.Slice(0, old(Buffered())) == old(Abs()).data
    {
      if isEmpty { return; }
      var n := Min(Buffered(), 2 * region.size);
      var bytes := vm.Slice(r, n);
      if n <= region.size {
        region.Store(0, bytes);
      } else {
        region.Store(0, bytes[..region.size]);
        region.Store(0, bytes[region.size..]);
      }
      Consume(n);
    }

    /** Move to the region `newBuf` that `virtualmem.Get` answers. The contents survive exactly if
        the size asked for is larger than what is buffered, and the ring is then in order
        exactly if the region has that very size. */
    method Grow(newCap: nat, newBuf: VirtualMem)
      requires Shape() && newCap > 0
      requires newBuf.Valid() && AdjustBufferSize(newCap, page) <= newBuf.size && newBuf.mem !in Region()
      modifies this, newBuf.mem
      ensures Region() == {newBuf.mem} && Size == AdjustBufferSize(newCap, page)
      ensures Straight() <==> Size > old(Buffered())
      ensures Straight() ==> Abs() == Grown(old(Abs()), newCap, page)
      ensures Valid() <==> Size > old(Buffered()) && newBuf.size == Size
    {
      var size := AdjustBufferSize(newCap, page);
      var oldLen := Buffered();
      ReadInto(newBuf);
      vm := newBuf;
      r, w, Size := 0, oldLen, size;
      if w > 0 { isEmpty := false; }
    }

    /** `Grow` with a region from the pool that is `extra` bytes larger than asked for. */
    method GrowFromPool(newCap: nat, extra: nat)
      requires Shape() && AdjustBufferSize(newCap, page) > Buffered()
      modifies this
      ensures Straight() && fresh(Region()) && Abs() == Grown(old(Abs()), newCap, page)
      ensures Valid() <==> extra == 0
    {
      var newBuf := new VirtualMem(AdjustBufferSize(newCap, page) + extra);
      Grow(newCap, newBuf);
    }

    /** Advance the write position over `n` bytes with a remainder. */
    method Extend(n: nat)
      requires Shape() && 0 < n <= Available()
      modifies this`isEmpty, this`w
      ensures Shape() && Positions() == (r, Ahead(old(w), n, Size), false)
      ensures old(Straight()) ==> Abs() == Filled(old(Abs()), old(Behind(n)))
    {
      ghost var m, b := vm.mem[..], Buffered();
      if Straight() { Filling(m, b, n); }
      MoveWrite(n);
      AbsIs(m, b + n);
    }

    method MoveWrite(n: nat)
      requires Shape() && 0 < n <= Available()
      modifies this`isEmpty, this`w
      ensures Shape() && Positions() == (r, Ahead(old(w), n, Size), false) && Buffered() == old(Buffered()) + n
    {
      w := Wrapped(w + n, Size);
      isEmpty := false;
    }

    /** If it grows, the region obtained is `extra` bytes larger than asked for. The bytes are
        appended all the same, but the ring is in order only if nothing is extra. */
    method Write(buffer: seq<Byte>, extra: nat) returns (n: nat)
      requires Shape()
      modifies this, Region()
      ensures n == |buffer| && Shape() && fresh(Region() - old(Region()))
      ensures Valid() <==> if n > old(Available()) then extra == 0 else old(Valid())
      ensures n > old(Available()) || old(Straight()) ==> Straight() && Abs() == Written(old(Abs()), buffer, page)
      ensures 0 < n <= old(Available()) ==>
                && vm == old(vm) && Size == old(Size)
                && Positions() == (old(r), Ahead(old(w), n, Size), false)
                && (old(w) + n <= vm.size ==> vm.mem[..] == old(vm.mem[..w]) + buffer + old(vm.mem[w + |buffer|..]))
    {
      n := |buffer|;
      if n == 0 {
        assert old(Abs()).data + buffer == old(Abs()).data;
        return;
      }
      var free := Available();
      if n > free {
        MakeRoom(buffer, extra);
        Append(buffer);
        return;
      }
      Append(buffer);
    }

    /** The growth of `Write`. */
    method MakeRoom(buffer: seq<Byte>, extra: nat)
      requires Shape() && |buffer| > Available()
      modifies this
      ensures Straight() && fresh(Region()) && |buffer| <= Available()
      ensures Filled(Abs(), buffer) == Written(old(Abs()), buffer, page)
      ensures Valid() <==> extra == 0
    {
      GrowThenFill(Abs(), buffer, page);
      GrowFromPool(Size + |buffer| - Available(), extra);
    }

    /** `copy` behind the data, then move the write position. */
    method Append(bytes: seq<Byte>)
      requires Shape() && 0 < |bytes| <= Available()
      modifies this`isEmpty, this`w, Region()
      ensures Shape() && Positions() == (r, Ahead(old(w), |bytes|, Size), false)
      ensures old(w) + |bytes| <= vm.size ==>
                vm.mem[..] == old(vm.mem[..w]) + bytes + old(vm.mem[w + |bytes|..])
      ensures old(Straight()) ==> Abs() == Filled(old(Abs()), bytes)
    {
      Deposit(bytes);
      Extend(|bytes|);
    }

    method WriteByte(c: Byte, extra: nat)
      requires Shape()
      modifies this, Region()
      ensures Shape() && fresh(Region() - old(Region()))
      ensures old(Available()) < 1 || old(Straight()) ==> Straight() && Abs() == Written(old(Abs()), [c], page)
      ensures Valid() <==> if old(Available()) < 1 then extra == 0 else old(Valid())
    {
      if Available() < 1 {
        MakeRoom([c], extra);
        AppendByte(c);
        return;
      }
      AppendByte(c);
    }

    method AppendByte(c: Byte)
      requires Shape() && 0 < Available()
      modifies this`isEmpty, this`w, Region()
      ensures Shape()
      ensures old(Straight()) ==> Abs() == Filled(old(Abs()), [c])
    {
      Deposit([c]);
      ExtendByOne();
    }

    method ExtendByOne()
      requires Shape() && 0 < Available()
      modifies this`isEmpty, this`w
      ensures Shape()
      ensures old(Straight()) ==> Abs() == Filled(old(Abs()), old(Behind(1)))
    {
      ghost var m, b := vm.mem[..], Buffered();
      if Straight() { Filling(m, b, 1); }
      MoveWriteByOne();
      AbsIs(m, b + 1);
    }

    method MoveWriteByOne()
      requires Shape() && 0 < Available()
      modifies this`isEmpty, this`w
      ensures Shape() && Positions() == (r, Ahead(old(w), 1, Size), false) && Buffered() == old(Buffered()) + 1
    {
      w := w + 1;
      if w == Size { w := 0; }
      isEmpty := false;
    }

    method ReadByte() returns (b: Byte, ok: bool)
      requires Valid()
      modifies this`isEmpty, this`r, this`w
      ensures Valid() && (ok <==> old(Abs()).data != [])
      ensures !ok ==> b == 0 && Abs() == old(Abs())
      ensures ok ==> b == old(Abs()).data[0] && Abs() == Dropped(old(Abs()), 1)
    {
      if isEmpty { return 0, false; }
      Skipping(1);
      ViewAt(vm.mem[..], r, Buffered());
      ghost var m, buffered := vm.mem[..], Buffered();
      b, ok := vm.mem[r], true;
      r := r + 1;
      if r == Size { r := 0; }
      if r == w { Reset(); } else { AbsIs(m, buffered - 1); }
    }

    /** Skip some but not all of the data. */
    method SkipPart(n: nat)
      requires Valid() && 0 < n < Buffered()
      modifies this`r
      ensures Valid() && Abs() == Dropped(old(Abs()), n)
    {
      ghost var m, b := vm.mem[..], Buffered();
      Skipping(n);
      r := Wrapped(r + n, Size);
      AbsIs(m, b - n);
    }

    /** What interfaces.go:51-56 says `Discard(n)` skips of `buffered` bytes. */
    function Promised(buffered: nat, n: int): nat {
      if n < 0 then buffered else Min(n, buffered)
    }

    /** Skips the promised bytes and says so exactly if `n` is not negative. A negative `n`
        moves the read position backwards instead of discarding everything. The ring is then
        in order exactly if that position is not negative, nor an empty ring's other than its
        write position; and the contents stay what they were exactly if the position does,
        which was at the beginning and moved by whole rounds. */
    method Discard(n: int) returns (discarded: int)
      requires Valid() && (n >= 0 || Size > 0)
      modifies this`isEmpty, this`r, this`w
      ensures discarded == Promised(|old(Abs()).data|, n) <==> n >= 0
      ensures n >= 0 ==> Valid() && Abs() == Dropped(old(Abs()), discarded)
      ensures n < 0 ==> discarded == n && r == GoMod(old(r) + n, Size) && w == old(w) && isEmpty == old(isEmpty)
      ensures n < 0 ==> (Valid() <==> r >= 0 && (isEmpty ==> r == w))
      ensures n < 0 && Valid() ==> (Abs() == old(Abs()) <==> r == old(r))
      ensures n < 0 && Valid() && r != old(r) ==> MovedBack(old(Abs()), Abs().data)
      ensures n < 0 ==> (r == old(r) <==> old(r) == 0 && (-n) % Size == 0)
    {
      if n == 0 { return 0; }
      discarded := Buffered();
      if n < discarded {
        if n < 0 {
          BackToStart(r, n, Size);
          r := GoMod(r + n, Size);
          assert Valid() ==> |Abs().data| == Buffered();
        } else {
          SkipPart(n);
        }
        return n;
      }
      Reset();
    }

    /** A non-positive `n` asks for everything; too large an `n` is `io.ErrShortBuffer`. */
    method Next(n: int) returns (bytes: seq<Byte>, ok: bool)
      requires Valid() && (vm != null || n > 0)
      modifies this`isEmpty, this`r, this`w
      ensures Valid() && (ok <==> n <= |old(Abs()).data|)
      ensures !ok ==> bytes == [] && Abs() == old(Abs())
      ensures ok ==> bytes == old(Abs()).data[..if n <= 0 then |old(Abs()).data| else n]
      ensures ok ==> Abs() == Dropped(old(Abs()), |bytes|)
    {
      var bufferLen := Buffered();
      var nBytes := n;
      if nBytes > bufferLen {
        return [], false;
      } else if nBytes <= 0 {
        nBytes := bufferLen;
      }
      bytes, ok := vm.Slice(r, nBytes), true;
      ViewTake(vm.mem[..], r, bufferLen, nBytes);
      assert bytes == Abs().data[..nBytes];
      var _ := Discard(nBytes);
    }

    method Peek(n: int) returns (bytes: seq<Byte>)
      requires Valid()
      ensures bytes == Abs().data[..if n <= 0 then |Abs().data| else Min(n, |Abs().data|)]
    {
      if isEmpty { return []; }
      if n <= 0 { return vm.Slice(r, Buffered()); }
      var buffered := Buffered();
      if buffered > n { buffered := n; }
      bytes := vm.Slice(r, buffered);
      ViewTake(vm.mem[..], r, Buffered(), buffered);
      assert bytes == Abs().data[..buffered];
    }

    method Bytes() returns (bytes: seq<Byte>)
      requires Valid()
      ensures bytes == Abs().data
    {
      if isEmpty { return []; }
      bytes := vm.Slice(r, Buffered());
    }

    method GrowIfUnsufficientFreeSpace(extra: nat)
      requires Shape()
      modifies this
      ensures Shape() && fresh(Region() - old(Region()))
      ensures Abs() == Roomy(old(Abs()), page)
      ensures Valid() <==> if old(Available()) < MIN_READ then extra == 0 else old(Valid())
      ensures old(Straight()) ==> Straight()
    {
      if Available() < MIN_READ { GrowFromPool(Buffered() + MIN_READ, extra); }
    }

    /** Read until the reader reports an error or the end of its data. Read number `k` finds
        `chunks[k]` at the reader and accepts as much of it as there is room for; if the ring
        grows before it, the region obtained is `extra[k]` bytes too large. The last read ends
        the loop.

        The contents are the old contents followed by what was read, unless the ring was
        empty and the first read delivered nothing: then the ring takes itself for full, of
        whatever the memory holds. The ring is in order exactly if the last region it obtained
        has the size asked for. */
    method ReadFrom(chunks: seq<seq<Byte>>, extra: seq<nat>) returns (total: nat)
      requires Straight() && chunks != [] && |extra| == |chunks|
      modifies this, Region()
      ensures Straight() && fresh(Region() - old(Region()))
      ensures !Stuck(old(Abs()), chunks) ==>
                && Abs() == ReadAll(old(Abs()), chunks, page).0 && total == |ReadAll(old(Abs()), chunks, page).1|
                && (Valid() <==> EndsExact(old(Abs()), chunks, extra, page, old(Valid())))
      ensures !Stuck(old(Abs()), chunks) ==>
                && old(Abs()).data <= Abs().data
                && Delivered(old(Abs()), chunks, page, Abs().data[|old(Abs()).data|..])
      ensures |Abs().data| == |old(Abs()).data| + total <==> !Stuck(old(Abs()), chunks)
      ensures Stuck(old(Abs()), chunks) ==>
                exists junk :: && |junk| == Roomy(old(Abs()), page).cap
                               && Abs() == ReadAll(Ring(junk, |junk|), chunks[1..], page).0
    {
      ReadAllDelivers(Abs(), chunks, page);
      total := Turn(chunks[0], extra[0]);
      ghost var first := Abs();
      var more := ReadMore(chunks[1..], extra[1..]);
      assert Stuck(old(Abs()), chunks) ==> |first.data| == Roomy(old(Abs()), page).cap && Ring(first.data, |first.data|) == first;
      total := total + more;
    }

    /** The turns after the first one. */
    method ReadMore(chunks: seq<seq<Byte>>, extra: seq<nat>) returns (total: nat)
      requires Straight() && Abs().data != [] && |extra| == |chunks|
      modifies this, Region()
      ensures Straight() && fresh(Region() - old(Region()))
      ensures Abs() == ReadAll(old(Abs()), chunks, page).0 && total == |ReadAll(old(Abs()), chunks, page).1|
      ensures Valid() <==> EndsExact(old(Abs()), chunks, extra, page, old(Valid()))
    {
      total := 0;
      ghost var all, end := ReadAll(Abs(), chunks, page), EndsExact(Abs(), chunks, extra, page, Valid());
      for k := 0 to |chunks|
        invariant Straight() && fresh(Region() - old(Region())) && Abs().data != []
        invariant ReadAll(Abs(), chunks[k..], page).0 == all.0 && total + |ReadAll(Abs(), chunks[k..], page).1| == |all.1|
        invariant EndsExact(Abs(), chunks[k..], extra[k..], page, Valid()) == end
      {
        assert chunks[k..][0] == chunks[k] && chunks[k..][1..] == chunks[k + 1..];
        assert extra[k..][0] == extra[k] && extra[k..][1..] == extra[k + 1..];
        var n := Turn(chunks[k], extra[k]);
        total := total + n;
      }
    }

    /** One turn of the loop of `ReadFrom`. */
    method Turn(chunk: seq<Byte>, extra: nat) returns (n: nat)
      requires Straight()
      modifies this, Region()
      ensures Straight() && fresh(Region() - old(Region())) && n == |Accepted(old(Abs()), chunk, page)|
      ensures chunk != [] || old(Abs()).data != [] ==>
                Abs() == Filled(Roomy(old(Abs()), page), Accepted(old(Abs()), chunk, page))
      ensures chunk == [] && old(Abs()).data == [] ==> |Abs().data| == Abs().cap == Roomy(old(Abs()), page).cap
      ensures Valid() <==> if old(Available()) < MIN_READ then extra == 0 else old(Valid())
    {
      GrowIfUnsufficientFreeSpace(extra);
      n := Min(|chunk|, Available());
      assert chunk[..n] == Accepted(old(Abs()), chunk, page);
      Receive(chunk[..n]);
    }

    /** The reader writes behind the data, `isEmpty` is
        cleared whatever the count, and the write position moves on. */
    method Receive(bytes: seq<Byte>)
      requires Straight() && |bytes| <= Available() && vm != null
      modifies this`isEmpty, this`w, Region()
      ensures Straight()
      ensures bytes != [] || old(Abs()).data != [] ==> Abs() == Filled(old(Abs()), bytes)
      ensures bytes == [] && old(Abs()).data == [] ==> |Abs().data| == Abs().cap == old(Abs()).cap
    {
      Deposit(bytes);
      var n := |bytes|;
      if n > 0 {
        Extend(n);
        return;
      }
      assert Filled(Abs(), bytes) == Abs();
      TakeForFilled();
    }

    /** The same with a count of zero. */
    method TakeForFilled()
      requires Shape() && vm != null
      modifies this`isEmpty, this`w
      ensures Positions() == (r, old(w), false)
    {
      isEmpty := false;
      w := Wrapped(w, Size);
    }

    /** Offer everything to a writer that takes `taken` bytes. They are dropped from the
        front, unless the ring was full and the writer took nothing: then all is lost. */
    method WriteTo(taken: nat, failed: bool) returns (offered: seq<Byte>, n: nat, status: Status)
      requires Valid() && taken <= Buffered()
      modifies this`isEmpty, this`r, this`w
      ensures Valid() && n == taken && offered == old(Abs()).data
      ensures Abs() == Dropped(old(Abs()), taken) <==> !(old(IsFull()) && taken == 0)
      ensures old(IsFull()) && taken == 0 ==> Abs() == Ring([], Size)
      ensures status == (if old(Abs()).data == [] then ErrIsEmpty else if failed then WriterError
                         else if Abs().data != [] then ErrShortWrite else Done)
    {
      if isEmpty { return [], 0, ErrIsEmpty; }
      offered := vm.Slice(r, Buffered());
      Consume(taken);
      n := taken;
      status := if failed then WriterError else if !isEmpty then ErrShortWrite else Done;
    }
  }

  datatype Status = Done | ErrIsEmpty | ErrShortWrite | WriterError
}
