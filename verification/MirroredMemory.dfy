/** Memory that is mapped at two consecutive addresses, as
    pkg/pool/virtualmem/virtualmem.go sets it up: position `i` and position
    `i + size` are the same byte, so any `size` consecutive bytes form one slice. */
module MirroredMemory {
  import opened ByteRing

  /** An index moved forward, wrapping at `size`. */
  function Ahead(pos: nat, n: nat, size: nat): (k: nat)
    requires pos < size && n <= size
    ensures k < size
  {
    if pos + n >= size then pos + n - size else pos + n
  }

  lemma AheadTwice(pos: nat, n: nat, j: nat, size: nat)
    requires pos < size && n + j <= size
    ensures Ahead(Ahead(pos, n, size), j, size) == Ahead(pos, n + j, size)
  {
  }

  /** The `n` consecutive bytes from position `pos` of memory `m` mapped twice in a row. */
  function View(m: seq<Byte>, pos: nat, n: nat): (s: seq<Byte>)
    requires pos < |m| && n <= |m|
    ensures |s| == n
  {
    if n == 0 then [] else View(m, pos, n - 1) + [m[Ahead(pos, n - 1, |m|)]]
  }

  lemma {:induction false} ViewAt(m: seq<Byte>, pos: nat, n: nat)
    requires pos < |m| && n <= |m|
    ensures forall j :: 0 <= j < n ==> View(m, pos, n)[j] == m[Ahead(pos, j, |m|)]
  {
    if n > 0 { ViewAt(m, pos, n - 1); }
  }

  /** It is a plain slice of the doubly mapped memory. */
  lemma ViewIsSlice(m: seq<Byte>, pos: nat, n: nat)
    requires pos < |m| && n <= |m|
    ensures View(m, pos, n) == (m + m)[pos..pos + n]
  {
    ViewAt(m, pos, n);
  }

  /** The number of bytes between the read and the write position. */
  function Length(size: nat, r: nat, w: nat, empty: bool): (n: nat)
    requires (r < size && w < size) || (r == w && empty)
    ensures n <= size
  {
    if r == w then (if empty then 0 else size) else if w > r then w - r else size - r + w
  }

  /** Read position, write position and emptiness after `n` bytes have been taken from a ring
      that was not marked empty. */
  function Taken(size: nat, r: nat, w: nat, n: nat): (int, int, bool)
    requires r < size && n <= size
  {
    if Ahead(r, n, size) == w then (0, 0, true) else (Ahead(r, n, size), w, false)
  }

  /** Skipping `n` of `b` bytes: the rest is still one slice. */
  lemma ViewDrop(m: seq<Byte>, pos: nat, b: nat, n: nat)
    requires pos < |m| && n <= b <= |m|
    ensures View(m, Ahead(pos, n, |m|), b - n) == View(m, pos, b)[n..]
  {
    ViewAt(m, pos, b);
    ViewAt(m, Ahead(pos, n, |m|), b - n);
    var left, right := View(m, Ahead(pos, n, |m|), b - n), View(m, pos, b)[n..];
    forall j | 0 <= j < b - n
      ensures left[j] == right[j]
    {
      AheadTwice(pos, n, j, |m|);
      assert right[j] == View(m, pos, b)[n + j];
    }
  }

  lemma ViewTake(m: seq<Byte>, pos: nat, b: nat, n: nat)
    requires pos < |m| && n <= b <= |m|
    ensures View(m, pos, n) == View(m, pos, b)[..n]
  {
    ViewAt(m, pos, b);
    ViewAt(m, pos, n);
  }

  /** Two slices, the second starting where the first ends, are one slice. */
  lemma ViewAppend(m: seq<Byte>, pos: nat, b: nat, n: nat)
    requires pos < |m| && b + n <= |m|
    ensures View(m, pos, b + n) == View(m, pos, b) + View(m, Ahead(pos, b, |m|), n)
  {
    ViewTake(m, pos, b + n, b);
    ViewDrop(m, pos, b + n, b);
    var all := View(m, pos, b + n);
    assert all == all[..b] + all[b..];
  }

  /** Moving the read position forward; the positions meet exactly if nothing is left. */
  lemma AfterDrop(size: nat, r: nat, w: nat, empty: bool, n: nat)
    requires r < size && w < size && (empty ==> r == w) && n <= Length(size, r, w, empty)
    requires n > 0 || r != w
    ensures var r' := Ahead(r, n, size);
            && (r' == w <==> n == Length(size, r, w, empty))
            && (r' != w ==> Length(size, r', w, empty) == Length(size, r, w, empty) - n)
  {
  }

  /** Moving the write position forward. */
  lemma AfterFill(size: nat, r: nat, w: nat, empty: bool, n: nat)
    requires r < size && w < size && (empty ==> r == w) && 0 < n <= size - Length(size, r, w, empty)
    ensures w == Ahead(r, Length(size, r, w, empty), size)
    ensures Length(size, r, Ahead(w, n, size), false) == Length(size, r, w, empty) + n
  {
  }

  lemma DropView(m: seq<Byte>, r: nat, w: nat, empty: bool, n: nat)
    requires r < |m| && w < |m| && (empty ==> r == w) && n <= Length(|m|, r, w, empty) && (n > 0 || r != w)
    ensures var b, r' := Length(|m|, r, w, empty), Ahead(r, n, |m|);
            && (r' == w <==> n == b) && (r' != w ==> Length(|m|, r', w, empty) == b - n)
            && View(m, r', b - n) == View(m, r, b)[n..]
  {
    AfterDrop(|m|, r, w, empty, n);
    ViewDrop(m, r, Length(|m|, r, w, empty), n);
  }

  /** A ring of `size` bytes on memory `m` shows what is put into it: the memory repeats where
      the ring wraps, or the data starts at the beginning. */
  predicate Fitting(m: seq<Byte>, size: nat, r: nat) {
    r < size <= |m| && (size == |m| || r == 0)
  }

  lemma FillView(m: seq<Byte>, size: nat, r: nat, w: nat, empty: bool, n: nat)
    requires Fitting(m, size, r) && w < size && (empty ==> r == w) && 0 < n <= size - Length(size, r, w, empty)
    ensures var b := Length(size, r, w, empty);
            && Length(size, r, Ahead(w, n, size), false) == b + n && View(m, r, b + n) == View(m, r, b) + View(m, w, n)
  {
    AfterFill(size, r, w, empty, n);
    ViewAppend(m, r, Length(size, r, w, empty), n);
  }

  lemma StoredIn(m: seq<Byte>, pos: nat, bytes: seq<Byte>)
    requires pos < |m| && |bytes| <= |m|
    requires forall j :: 0 <= j < |bytes| ==> m[Ahead(pos, j, |m|)] == bytes[j]
    ensures View(m, pos, |bytes|) == bytes
  {
    ViewAt(m, pos, |bytes|);
  }

  lemma StoredFlat(m: seq<Byte>, m': seq<Byte>, pos: nat, bytes: seq<Byte>)
    requires |m| == |m'| && pos < |m| && pos + |bytes| <= |m|
    requires forall j :: 0 <= j < |bytes| ==> m'[Ahead(pos, j, |m|)] == bytes[j]
    requires forall j :: |bytes| <= j < |m| ==> m'[Ahead(pos, j, |m|)] == m[Ahead(pos, j, |m|)]
    ensures m' == m[..pos] + bytes + m[pos + |bytes|..]
  {
    forall i | 0 <= i < |m|
      ensures m'[i] == (m[..pos] + bytes + m[pos + |bytes|..])[i]
    {
      var j := if i >= pos then i - pos else i - pos + |m|;
      assert Ahead(pos, j, |m|) == i;
    }
  }

  /** Memory that agrees behind the first `n` bytes from `pos` gives the same slices there. */
  lemma {:induction false} Untouched(m: seq<Byte>, m': seq<Byte>, pos: nat, n: nat, b: nat)
    requires pos < |m| == |m'| && n + b <= |m|
    requires forall i :: n <= i < |m| ==> m[Ahead(pos, i, |m|)] == m'[Ahead(pos, i, |m|)]
    ensures View(m, Ahead(pos, n, |m|), b) == View(m', Ahead(pos, n, |m|), b)
    decreases b
  {
    if b > 0 {
      Untouched(m, m', pos, n, b - 1);
      AheadTwice(pos, n, b - 1, |m|);
    }
  }

  /** Behind `n` bytes of the free space comes the rest of it, then the data. */
  lemma BackToRead(size: nat, r: nat, w: nat, empty: bool, n: nat)
    requires r < size && w < size && (empty ==> r == w) && n <= size - Length(size, r, w, empty)
    ensures var b := Length(size, r, w, empty); b > 0 ==> Ahead(Ahead(w, n, size), size - b - n, size) == r
  {
  }

  lemma SameRound(m: seq<Byte>, m': seq<Byte>, r: nat, w: nat, empty: bool, n: nat)
    requires r < |m| == |m'| && w < |m| && (empty ==> r == w) && n <= |m| - Length(|m|, r, w, empty)
    requires View(m, Ahead(w, n, |m|), |m| - n) == View(m', Ahead(w, n, |m|), |m| - n)
    ensures View(m, r, Length(|m|, r, w, empty)) == View(m', r, Length(|m|, r, w, empty))
  {
    var b, k := Length(|m|, r, w, empty), Ahead(w, n, |m|);
    BackToRead(|m|, r, w, empty, n);
    ViewDrop(m, k, |m| - n, |m| - b - n);
    ViewDrop(m', k, |m| - n, |m| - b - n);
  }

  /** The same for `w` bytes at the beginning. */
  lemma SameStart(m: seq<Byte>, m': seq<Byte>, w: nat, n: nat)
    requires w < |m| == |m'| && w + n <= |m|
    requires View(m, Ahead(w, n, |m|), |m| - n) == View(m', Ahead(w, n, |m|), |m| - n)
    ensures View(m, 0, w) == View(m', 0, w)
  {
    SameRound(m, m', 0, w, w == 0, n);
  }

  lemma SameAll(m: seq<Byte>, m': seq<Byte>, b: nat)
    requires b <= |m| == |m'| && |m| > 0 && View(m, 0, |m|) == View(m', 0, |m|)
    ensures View(m, 0, b) == View(m', 0, b)
  {
    ViewTake(m, 0, |m|, b);
    ViewTake(m', 0, |m|, b);
  }

  /** Memory that agrees everywhere but on the `n` bytes behind the data holds the same data. */
  lemma SameData(m: seq<Byte>, m': seq<Byte>, size: nat, r: nat, w: nat, empty: bool, n: nat)
    requires Fitting(m, size, r) && |m| == |m'| && w < size && (empty ==> r == w) && n <= size - Length(size, r, w, empty)
    requires View(m, Ahead(w, n, |m|), |m| - n) == View(m', Ahead(w, n, |m|), |m| - n)
    ensures View(m, r, Length(size, r, w, empty)) == View(m', r, Length(size, r, w, empty))
  {
    if size == |m| {
      SameRound(m, m', r, w, empty, n);
    } else if w > 0 || empty {
      SameStart(m, m', w, n);
    } else {
      SameAll(m, m', size);
    }
  }

  /** A region of `size` bytes mapped at two consecutive addresses. */
  class VirtualMem {
    const size: nat
    const mem: array<Byte>

    ghost predicate Valid() {
      size == mem.Length > 0
    }

    constructor (size: nat)
      requires size > 0
      ensures Valid() && fresh(mem) && this.size == size
    {
      this.size := size;
      mem := new Byte[size];
    }

    function Slice(pos: nat, n: nat): (s: seq<Byte>)
      requires Valid() && pos < size && n <= size
      reads mem
    {
      View(mem[..], pos, n)
    }

    method Copy(pos: nat, bytes: seq<Byte>)
      requires Valid() && pos < size && |bytes| <= size
      modifies mem
      ensures forall j :: 0 <= j < |bytes| ==> mem[Ahead(pos, j, size)] == bytes[j]
      ensures forall j :: |bytes| <= j < size ==> mem[Ahead(pos, j, size)] == old(mem[Ahead(pos, j, size)])
    {
      for i := 0 to |bytes|
        invariant forall j :: 0 <= j < i ==> mem[Ahead(pos, j, size)] == bytes[j]
        invariant forall j :: i <= j < size ==> mem[Ahead(pos, j, size)] == old(mem[Ahead(pos, j, size)])
      {
        mem[Ahead(pos, i, size)] := bytes[i];
      }
    }

    /** Copy `bytes` to position `pos`, wrapping through the mirror. Every slice that starts
        behind the copy and ends before it is untouched. */
    method Store(pos: nat, bytes: seq<Byte>)
      requires Valid() && pos < size && |bytes| <= size
      modifies mem
      ensures Slice(pos, |bytes|) == bytes
      ensures Slice(Ahead(pos, |bytes|, size), size - |bytes|) == old(Slice(Ahead(pos, |bytes|, size), size - |bytes|))
      ensures pos + |bytes| <= size ==> mem[..] == old(mem[..pos]) + bytes + old(mem[pos + |bytes|..])
    {
      Copy(pos, bytes);
      if pos + |bytes| <= size { StoredFlat(old(mem[..]), mem[..], pos, bytes); }
      StoredIn(mem[..], pos, bytes);
      Untouched(mem[..], old(mem[..]), pos, |bytes|, size - |bytes|);
    }
  }
}
