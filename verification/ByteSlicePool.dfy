/** pkg/pool/byteslice/byteslice_pool.go: 32 slots of bare storage addresses. A slot
    remembers no size, so `Get` makes up the capacity; what is proved here is that it never
    exceeds the storage behind the address. */
module ByteSlicePool {
  import opened SizeClasses

  const MAX_INT32: nat := 0x7fff_ffff

  /** A slice header and the real size of the storage it points to. */
  datatype Slice = Nil | Slice(len: nat, cap: nat, storage: nat) {
    predicate Sound() { Slice? ==> len <= cap <= storage }
  }

  lemma InRange(size: nat)
    requires 0 < size <= MAX_INT32
    ensures Index(size) < SLOTS && Slot(size) < SLOTS
  {
    assert Pow2(10) == 1024;
    assert Pow2(20) == 1048576;
    assert Pow2(31) > MAX_INT32;
    IndexIsLeast(size, 31);
  }

  class Pool {
    /** Per slot, the real sizes of the storage held. */
    var pools: seq<multiset<nat>>

    ghost predicate Valid()
      reads this
    {
      |pools| == SLOTS && forall k, n :: 0 <= k < SLOTS && n in pools[k] ==> Pow2(k) <= n
    }

    constructor ()
      ensures Valid()
    {
      pools := seq(SLOTS, _ => multiset{});
    }

    predicate CanAnswer(k: nat, answer: Option<nat>)
      reads this
    {
      answer.None? || (k < |pools| && answer.value in pools[k])
    }

    /** byteslice_pool.go:46-70; `answer` is what the slot's pool comes up with. */
    method Get(size: int, answer: Option<nat>) returns (buf: Slice)
      requires Valid() && (0 < size <= MAX_INT32 ==> CanAnswer(Index(size), answer))
      modifies this
      ensures Valid() && buf.Sound()
      ensures buf.Nil? <==> size <= 0
      ensures size > 0 ==> buf.len == size
      ensures size > MAX_INT32 ==> buf.cap == size && pools == old(pools)
      ensures 0 < size <= MAX_INT32 ==> buf.cap == Pow2(Index(size))
      ensures 0 < size <= MAX_INT32 && answer.None? ==> pools == old(pools)
      ensures 0 < size <= MAX_INT32 && answer.Some? ==>
                buf.storage == answer.value && pools == old(pools)[Index(size) := old(pools)[Index(size)] - multiset{answer.value}]
    {
      if size <= 0 { return Nil; }
      if size > MAX_INT32 { return Slice(size, size, size); }
      InRange(size);
      IndexIsLeast(size, Index(size));
      var idx := Index(size);
      if answer.None? { return Slice(size, Pow2(idx), Pow2(idx)); }
      pools := pools[idx := pools[idx] - multiset{answer.value}];
      return Slice(size, Pow2(idx), answer.value);
    }

    /** byteslice_pool.go:73-85 */
    method Put(buf: Slice)
      requires Valid() && buf.Sound()
      modifies this
      ensures Valid()
      ensures buf.Nil? || buf.cap == 0 || buf.cap > MAX_INT32 ==> pools == old(pools)
      ensures buf.Slice? && 0 < buf.cap <= MAX_INT32 ==>
                0 <= Slot(buf.cap) < SLOTS &&
                pools == old(pools)[Slot(buf.cap) := old(pools)[Slot(buf.cap)] + multiset{buf.storage}]
    {
      if buf.Nil? || buf.cap == 0 || buf.cap > MAX_INT32 { return; }
      InRange(buf.cap);
      SlotIsFloor(buf.cap, 0);
      var idx := Index(buf.cap);
      if buf.cap != Pow2(idx) { idx := idx - 1; }
      pools := pools[idx := pools[idx] + multiset{buf.storage}];
    }
  }

  datatype Op = OpGet(size: int, answer: Option<nat>) | OpPut(buf: Slice) | OpPutBack(k: nat)

  /** Any history of gets, puts of the caller's own slices and puts of slices the pool itself
      gave out: no slice reaches beyond its storage or is shorter than asked. */
  method Drive(p: Pool, ops: seq<Op>) returns (got: seq<Slice>)
    requires p.Valid() && forall i :: 0 <= i < |ops| && ops[i].OpPut? ==> ops[i].buf.Sound()
    modifies p
    ensures p.Valid() && |got| == |ops|
    ensures forall i :: 0 <= i < |ops| ==> got[i].Sound()
    ensures forall i :: 0 <= i < |ops| && ops[i].OpGet? && ops[i].size > 0 ==> got[i].Slice? && got[i].len == ops[i].size
  {
    got := [];
    for i := 0 to |ops|
      invariant p.Valid() && |got| == i
      invariant forall j :: 0 <= j < i ==> got[j].Sound()
      invariant forall j :: 0 <= j < i && ops[j].OpGet? && ops[j].size > 0 ==> got[j].Slice? && got[j].len == ops[j].size
    {
      var r := Nil;
      match ops[i] {
        case OpGet(size, answer) =>
          var possible := size > 0 && p.CanAnswer(Index(size), answer);
          r := p.Get(size, if possible then answer else None);
        case OpPut(buf) =>
          p.Put(buf);
        case OpPutBack(k) =>
          if k < i { p.Put(got[k]); }
      }
      got := got + [r];
    }
  }
}
