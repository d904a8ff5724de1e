/** pkg/pool/virtualmem/virtualmem_pool.go: 32 slots of mirrored regions. A region is known
    here by its size. What a slot's `sync.Pool` answers is up to the runtime: nothing, or any
    region that was put there. */
module VirtualMemPool {
  import opened ByteRing
  import opened SizeClasses

  const MAX_VM_SIZE: nat := 64 * 1024 * 1024

  lemma MaxIsPower()
    ensures Pow2(26) == MAX_VM_SIZE && Slot(MAX_VM_SIZE) == 26
  {
    assert Pow2(13) == 8192;
    assert Pow2(26) == MAX_VM_SIZE;
    SlotIsFloor(MAX_VM_SIZE, 26);
    SlotIsFloor(MAX_VM_SIZE, 27);
  }

  /** Slot `k` may hold a region of size `n`. */
  ghost predicate Fits(n: nat, k: nat, page: nat)
    requires page > 0
  {
    Pow2(k) <= n < 2 * Pow2(k) && page <= n <= MAX_VM_SIZE && Whole(n, page)
  }

  /** Whether a region from the pool can differ in size from the one asked for: the requests
      strictly between one page and the maximum. */
  predicate Inexact(adjusted: nat, page: nat) {
    page < adjusted < MAX_VM_SIZE
  }

  /** A region that fits the slot asked is large enough. */
  lemma LargeEnough(n: nat, adjusted: nat, page: nat)
    requires page > 0 && adjusted > 0 && Fits(n, Index(adjusted), page)
    ensures adjusted <= n
  {
    IndexIsLeast(adjusted, Index(adjusted));
  }

  /** It has the very size asked for, unless the request is inexact. */
  lemma ExactOutside(n: nat, adjusted: nat, page: nat)
    requires page > 0 && Whole(adjusted, page) && page <= adjusted <= MAX_VM_SIZE && !Inexact(adjusted, page)
    requires Fits(n, Index(adjusted), page)
    requires exists q: nat :: page == Pow2(q)
    ensures n == adjusted
  {
    var q: nat :| page == Pow2(q);
    MaxIsPower();
    LargeEnough(n, adjusted, page);
    if adjusted == page {
      IndexIsLeast(adjusted, q);
      Monotone(Index(adjusted), q);
      UpToTwoPages(n, page);
    }
  }

  /** A region of another size that fits the slot of an inexact request. */
  function Other(adjusted: nat, page: nat): nat
    requires adjusted > 0
  {
    if Pow2(Index(adjusted)) == adjusted then adjusted + page else Pow2(Index(adjusted))
  }

  lemma OtherFits(adjusted: nat, page: nat, q: nat)
    requires page == Pow2(q) && Whole(adjusted, page) && Inexact(adjusted, page)
    ensures Other(adjusted, page) != adjusted && Fits(Other(adjusted, page), Index(adjusted), page)
  {
    var k := Index(adjusted);
    MaxIsPower();
    IndexIsLeast(adjusted, k);
    IndexIsLeast(adjusted, 26);
    IndexIsLeast(adjusted, q);
    Monotone(q, k);
    Monotone(k, 26);
    WholePower(q, k);
    if Pow2(k) == adjusted {
      WholeSum(adjusted, page, page);
      if k == 26 { assert false; }
      Monotone(k, 26);
    }
  }

  class Pool {
    var pools: seq<multiset<nat>>
    const page: nat

    ghost predicate Valid()
      reads this
    {
      && (exists q: nat :: page == Pow2(q))
      && |pools| == SLOTS
      && forall k, n :: 0 <= k < SLOTS && n in pools[k] ==> Fits(n, k, page)
    }

    constructor (page: nat)
      requires exists q: nat :: page == Pow2(q)
      ensures Valid() && this.page == page && forall k :: 0 <= k < SLOTS ==> pools[k] == multiset{}
    {
      this.page := page;
      pools := seq(SLOTS, _ => multiset{});
    }

    /** What slot `k` can answer. */
    predicate CanAnswer(k: nat, answer: Option<nat>)
      reads this
    {
      answer.None? || (k < |pools| && answer.value in pools[k])
    }

    /** virtualmem_pool.go:40-57; `answer` is what the slot's pool comes up with. */
    method Get(size: int, answer: Option<nat>) returns (region: Option<nat>)
      requires Valid()
      requires 0 < size && AdjustBufferSize(size, page) <= MAX_VM_SIZE ==>
                 CanAnswer(Index(AdjustBufferSize(size, page)), answer)
      modifies this
      ensures Valid()
      ensures region.None? <==> size <= 0
      ensures size > 0 ==> var adjusted := AdjustBufferSize(size, page);
                && adjusted <= region.value && Whole(region.value, page)
                && (!Inexact(adjusted, page) ==> region.value == adjusted)
                && (adjusted <= MAX_VM_SIZE && answer.Some? ==>
                      region == answer && pools == old(pools)[Index(adjusted) := old(pools)[Index(adjusted)] - multiset{region.value}])
                && (adjusted > MAX_VM_SIZE || answer.None? ==> region.value == adjusted && pools == old(pools))
    {
      if size <= 0 { return None; }
      var adjusted := AdjustBufferSize(size, page);
      AdjustedIsWhole(size, page);
      if adjusted > MAX_VM_SIZE { return Some(adjusted); }
      InRange(adjusted);
      var idx := Index(adjusted);
      if answer.None? { return Some(adjusted); }
      pools := pools[idx := pools[idx] - multiset{answer.value}];
      LargeEnough(answer.value, adjusted, page);
      if !Inexact(adjusted, page) { ExactOutside(answer.value, adjusted, page); }
      return answer;
    }

    /** virtualmem_pool.go:60-71 */
    method Put(size: nat)
      requires Valid() && Whole(size, page)
      modifies this
      ensures Valid()
      ensures size < page || size > MAX_VM_SIZE ==> pools == old(pools)
      ensures page <= size <= MAX_VM_SIZE ==> 0 <= Slot(size) < SLOTS
      ensures page <= size <= MAX_VM_SIZE ==>
                pools == old(pools)[Slot(size) := old(pools)[Slot(size)] + multiset{size}]
    {
      if size < page || size > MAX_VM_SIZE { return; }
      InRange(size);
      SlotIsFloor(size, 0);
      var idx := Index(size);
      if size != Pow2(idx) { idx := idx - 1; }
      pools := pools[idx := pools[idx] + multiset{size}];
    }

    lemma InRange(size: nat)
      requires 0 < size <= MAX_VM_SIZE
      ensures Index(size) < SLOTS
    {
      MaxIsPower();
      IndexIsLeast(size, 26);
    }
  }

  // ---------------------------------------------------------------- every history

  datatype Op = OpGet(size: int, answer: Option<nat>) | OpPut(region: nat)

  /** Any history of gets and puts, whatever the slots answer (an answer a slot does not hold
      stands for none): no region is smaller than asked, and outside the inexact requests none is larger either. */
  method Drive(p: Pool, ops: seq<Op>) returns (got: seq<Option<nat>>)
    requires p.Valid() && forall i :: 0 <= i < |ops| && ops[i].OpPut? ==> Whole(ops[i].region, p.page)
    modifies p
    ensures p.Valid() && |got| == |ops|
    ensures forall i :: 0 <= i < |ops| && ops[i].OpGet? && ops[i].size > 0 ==>
              && got[i].Some? && ops[i].size <= AdjustBufferSize(ops[i].size, p.page) <= got[i].value
              && (!Inexact(AdjustBufferSize(ops[i].size, p.page), p.page) ==> got[i].value == AdjustBufferSize(ops[i].size, p.page))
  {
    got := [];
    for i := 0 to |ops|
      invariant p.Valid() && |got| == i
      invariant forall j :: 0 <= j < i && ops[j].OpGet? && ops[j].size > 0 ==>
                  && got[j].Some? && AdjustBufferSize(ops[j].size, p.page) <= got[j].value
                  && (!Inexact(AdjustBufferSize(ops[j].size, p.page), p.page) ==> got[j].value == AdjustBufferSize(ops[j].size, p.page))
    {
      var r: Option<nat> := None;
      match ops[i] {
        case OpGet(size, answer) =>
          var possible := size > 0 && p.CanAnswer(Index(AdjustBufferSize(size, p.page)), answer);
          r := p.Get(size, if possible then answer else None);
        case OpPut(region) =>
          p.Put(region);
      }
      got := got + [r];
    }
  }

  /** Every inexact request can be answered by a region of another size: put one there first. */
  method GetCanBeLarger(size: nat, page: nat, q: nat) returns (region: Option<nat>)
    requires page == Pow2(q) && Inexact(AdjustBufferSize(size, page), page)
    ensures region.Some? && region.value != AdjustBufferSize(size, page)
  {
    var adjusted := AdjustBufferSize(size, page);
    AdjustedIsWhole(size, page);
    OtherFits(adjusted, page, q);
    var other := Other(adjusted, page);
    SlotIsFloor(other, Index(adjusted));
    SlotIsFloor(other, Index(adjusted) + 1);
    var p := new Pool(page);
    p.Put(other);
    region := p.Get(size, Some(other));
  }
}
