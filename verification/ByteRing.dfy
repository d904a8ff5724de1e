/** The abstract ring buffer: a byte sequence and a capacity. The operations of
    pkg/buffer/magicring/ringbuffer.go are specified here as functions on it; the class
    in RingBuffer.dfy implements them and the connection protocol builds on them. */
module ByteRing {
  import opened Arithmetic

  type Byte = bv8

  const MIN_READ: nat := 1024

  datatype Ring = Ring(data: seq<Byte>, cap: nat) {
    predicate Ok() { |data| <= cap }

    function Free(): int { cap - |data| }
  }

  /** `AdjustBufferSize`: the least multiple of the page size that is at least `size`. */
  function AdjustBufferSize(size: nat, page: nat): (n: nat)
    requires page > 0
    ensures size <= n < size + page
    ensures size == 0 <==> n == 0
  {
    if size == 0 then 0
    else page + AdjustBufferSize(if size <= page then 0 else size - page, page)
  }

  /** It is the rounded-up quotient times the page size, as virtualmem.go:62-66 computes it. */
  lemma {:induction false} AdjustIsCeiling(size: nat, page: nat)
    requires page > 0
    ensures AdjustBufferSize(size, page) == page * ((size + page - 1) / page)
    decreases size
  {
    if size == 0 {
      DivUnique(page, 0, page - 1);
    } else if size <= page {
      DivUnique(page, 1, size - 1);
    } else {
      AdjustIsCeiling(size - page, page);
      OneMore(size - 1, page);
    }
  }

  lemma OneMore(x: nat, page: nat)
    requires page > 0
    ensures (x + page) / page == x / page + 1
    ensures page * (x / page + 1) == page * (x / page) + page
  {
    var q, m := x / page, x % page;
    assert x == page * q + m;
    DivUnique(page, q + 1, m);
  }

  function Grown(rb: Ring, c: nat, page: nat): Ring
    requires page > 0
  {
    rb.(cap := AdjustBufferSize(c, page))
  }

  /** `Write`: append, growing first when there is no room. */
  function Written(rb: Ring, bytes: seq<Byte>, page: nat): (r: Ring)
    requires page > 0 && rb.Ok()
    ensures r.Ok() && r.data == rb.data + bytes
    ensures if |bytes| <= rb.Free() then r.cap == rb.cap else |r.data| <= r.cap < |r.data| + page
  {
    Ring(rb.data + bytes,
         if |bytes| > rb.Free() then AdjustBufferSize(|rb.data| + |bytes|, page) else rb.cap)
  }

  /** `GrowIfUnsufficientFreeSpace`: make room for at least MIN_READ bytes. */
  function Roomy(rb: Ring, page: nat): (r: Ring)
    requires page > 0 && rb.Ok()
    ensures r.Ok() && r.data == rb.data && r.Free() >= MIN_READ
    ensures if rb.Free() >= MIN_READ then r.cap == rb.cap else r.Free() < MIN_READ + page
  {
    if rb.Free() < MIN_READ then Grown(rb, |rb.data| + MIN_READ, page) else rb
  }

  /** The size of the region these ask for, if any. */
  function WrittenAsks(rb: Ring, bytes: seq<Byte>, page: nat): (asked: seq<nat>)
    requires page > 0 && rb.Ok()
  {
    if |bytes| > rb.Free() then [Written(rb, bytes, page).cap] else []
  }

  function RoomyAsks(rb: Ring, page: nat): (asked: seq<nat>)
    requires page > 0 && rb.Ok()
  {
    if rb.Free() < MIN_READ then [Roomy(rb, page).cap] else []
  }

  /** `AdvanceWrite`: bytes placed behind the data become part of it. */
  function Filled(rb: Ring, bytes: seq<Byte>): (r: Ring)
    requires rb.Ok() && |bytes| <= rb.Free()
    ensures r.Ok()
  {
    rb.(data := rb.data + bytes)
  }

  /** `Write` on a ring without room. */
  lemma GrowThenFill(rb: Ring, bytes: seq<Byte>, page: nat)
    requires page > 0 && rb.Ok() && |bytes| > rb.Free()
    ensures var grown := Grown(rb, rb.cap + |bytes| - rb.Free(), page);
            grown.Ok() && |bytes| <= grown.Free() && Filled(grown, bytes) == Written(rb, bytes, page)
  {
  }

  /** What one read of `ReadFrom` accepts of the bytes a reader has: the first ones, all of them
      or as many as there is room for. */
  function Accepted(rb: Ring, chunk: seq<Byte>, page: nat): (s: seq<Byte>)
    requires page > 0 && rb.Ok()
    ensures s <= chunk && |s| <= Roomy(rb, page).Free()
    ensures |s| == |chunk| || |s| == Roomy(rb, page).Free()
  {
    var room := Roomy(rb, page).Free();
    if |chunk| < room then chunk else chunk[..room]
  }

  /** `ReadFrom`: the ring and the bytes accepted after the given reads. */
  function ReadAll(rb: Ring, chunks: seq<seq<Byte>>, page: nat): (r: (Ring, seq<Byte>))
    requires page > 0 && rb.Ok()
    ensures r.0.Ok() && r.0.data == rb.data + r.1
    decreases |chunks|
  {
    if chunks == [] then (rb, [])
    else
      var (r', got) := ReadAll(Filled(Roomy(rb, page), Accepted(rb, chunks[0], page)), chunks[1..], page);
      (r', Accepted(rb, chunks[0], page) + got)
  }

  /** `got` is what reads of these chunks deliver to a ring: of each chunk the longest prefix for
      which there is room after growing, one behind the other. */
  ghost predicate Delivered(rb: Ring, chunks: seq<seq<Byte>>, page: nat, got: seq<Byte>)
    requires page > 0 && rb.Ok()
    decreases |chunks|
  {
    if chunks == [] then got == []
    else
      var room := Roomy(rb, page).Free();
      var k := if |chunks[0]| < room then |chunks[0]| else room;
      k <= |got| && got[..k] == chunks[0][..k] && Delivered(Filled(Roomy(rb, page), got[..k]), chunks[1..], page, got[k..])
  }

  lemma {:induction false} ReadAllDelivers(rb: Ring, chunks: seq<seq<Byte>>, page: nat)
    requires page > 0 && rb.Ok()
    ensures Delivered(rb, chunks, page, ReadAll(rb, chunks, page).1)
    decreases |chunks|
  {
    if chunks != [] {
      var s := Accepted(rb, chunks[0], page);
      var got := ReadAll(Filled(Roomy(rb, page), s), chunks[1..], page).1;
      ReadAllDelivers(Filled(Roomy(rb, page), s), chunks[1..], page);
      assert (s + got)[..|s|] == s && (s + got)[|s|..] == got;
    }
  }

  function Flat(chunks: seq<seq<Byte>>): seq<Byte> {
    if chunks == [] then [] else chunks[0] + Flat(chunks[1..])
  }

  /** Chunks no longer than the room that is always made are delivered whole. */
  lemma {:induction false} SmallChunks(rb: Ring, chunks: seq<seq<Byte>>, page: nat, got: seq<Byte>)
    requires page > 0 && rb.Ok() && Delivered(rb, chunks, page, got)
    requires forall k :: 0 <= k < |chunks| ==> |chunks[k]| <= MIN_READ
    ensures got == Flat(chunks)
    decreases |chunks|
  {
    if chunks != [] {
      var k := |chunks[0]|;
      assert chunks[0][..k] == chunks[0] && got == got[..k] + got[k..];
      SmallChunks(Filled(Roomy(rb, page), got[..k]), chunks[1..], page, got[k..]);
    }
  }

  /** The sizes of the regions it asks for, in order. */
  function ReadAsks(rb: Ring, chunks: seq<seq<Byte>>, page: nat): (asked: seq<nat>)
    requires page > 0 && rb.Ok()
    decreases |chunks|
  {
    if chunks == [] then []
    else RoomyAsks(rb, page) + ReadAsks(Filled(Roomy(rb, page), Accepted(rb, chunks[0], page)), chunks[1..], page)
  }

  /** They grow, beyond the capacity at the beginning and up to the one at the end. */
  lemma {:induction false} AsksGrow(rb: Ring, chunks: seq<seq<Byte>>, page: nat)
    requires page > 0 && rb.Ok()
    ensures var asked, end := ReadAsks(rb, chunks, page), ReadAll(rb, chunks, page).0.cap;
            && (forall i, j :: 0 <= i < j < |asked| ==> asked[i] < asked[j])
            && if asked == [] then end == rb.cap else rb.cap < asked[0] && asked[|asked| - 1] == end
    decreases |chunks|
  {
    if chunks != [] {
      AsksGrow(Filled(Roomy(rb, page), Accepted(rb, chunks[0], page)), chunks[1..], page);
    }
  }

  /** Whether the last region obtained has the size asked for, with `extra[k]` bytes too many in
      the region obtained before read `k`; `exact` says so of the region it starts with. */
  predicate EndsExact(rb: Ring, chunks: seq<seq<Byte>>, extra: seq<nat>, page: nat, exact: bool)
    requires page > 0 && rb.Ok() && |extra| == |chunks|
    decreases |chunks|
  {
    if chunks == [] then exact
    else EndsExact(Filled(Roomy(rb, page), Accepted(rb, chunks[0], page)), chunks[1..], extra[1..], page,
                   if rb.Free() < MIN_READ then extra[0] == 0 else exact)
  }

  /** The chunks after which an empty ring takes itself for full. */
  predicate Stuck(rb: Ring, chunks: seq<seq<Byte>>) {
    rb.data == [] && chunks != [] && chunks[0] == []
  }

  /** `AdvanceRead`, `Read`, `Next` and `Discard`: drop a prefix. */
  function Dropped(rb: Ring, n: nat): (r: Ring)
    requires rb.Ok() && n <= |rb.data|
    ensures r.Ok()
  {
    rb.(data := rb.data[n..])
  }

  /** What a ring in order may hold after a `Discard` of a negative number, other than what it
      held before: it was not empty, it is not empty, and the number of bytes has changed. */
  predicate MovedBack(rb: Ring, left: seq<Byte>) {
    rb.data != [] && 0 < |left| <= rb.cap && |left| != |rb.data|
  }
}
