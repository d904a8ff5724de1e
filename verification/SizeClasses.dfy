/** The arithmetic of the size classes of pkg/pool/virtualmem/virtualmem_pool.go and
    pkg/pool/byteslice/byteslice_pool.go, which share `index`. */
module SizeClasses {
  import opened ByteRing

  /** The slots of a pool. */
  const SLOTS: nat := 32

  /** What a slot comes up with. */
  datatype Option<T> = None | Some(value: T)

  function Pow2(k: nat): (n: nat)
    ensures n >= 1
  {
    if k == 0 then 1 else 2 * Pow2(k - 1)
  }

  lemma {:induction false} Monotone(j: nat, k: nat)
    requires j <= k
    ensures Pow2(j) <= Pow2(k) && (j < k ==> 2 * Pow2(j) <= Pow2(k))
    decreases k
  {
    if j < k { Monotone(j, k - 1); }
  }

  /** `bits.Len32`: the number of bits of `n`. */
  function BitLen(n: nat): nat {
    if n == 0 then 0 else 1 + BitLen(n / 2)
  }

  lemma {:induction false} BitLenBounds(n: nat)
    ensures n < Pow2(BitLen(n)) && (n > 0 ==> Pow2(BitLen(n)) <= 2 * n)
    decreases n
  {
    if n > 0 { BitLenBounds(n / 2); }
  }

  /** virtualmem_pool.go:73-75 and byteslice_pool.go:87-89 */
  function Index(n: nat): nat
    requires n > 0
  {
    BitLen(n - 1)
  }

  /** The least power of two that is at least `n`. */
  lemma IndexIsLeast(n: nat, k: nat)
    requires n > 0
    ensures Index(n) <= k <==> n <= Pow2(k)
  {
    BitLenBounds(n - 1);
    if Index(n) <= k {
      Monotone(Index(n), k);
    } else {
      Monotone(k, Index(n));
    }
  }

  /** The slot `Put` chooses. */
  function Slot(n: nat): (k: int)
    requires n > 0
  {
    if n != Pow2(Index(n)) then Index(n) - 1 else Index(n)
  }

  /** It is the greatest power of two not above `n`. */
  lemma SlotIsFloor(n: nat, k: nat)
    requires n > 0
    ensures 0 <= Slot(n) && Pow2(Slot(n)) <= n < 2 * Pow2(Slot(n))
    ensures k <= Slot(n) <==> Pow2(k) <= n
  {
    IndexIsLeast(n, Index(n));
    if Index(n) > 0 { IndexIsLeast(n, Index(n) - 1); }
    assert 0 <= Slot(n) && Pow2(Slot(n)) <= n < 2 * Pow2(Slot(n));
    if k <= Slot(n) { Monotone(k, Slot(n)); } else { Monotone(Slot(n), k); }
  }

  // ---------------------------------------------------------------- whole pages

  ghost predicate Whole(n: nat, page: nat)
    requires page > 0
  {
    AdjustBufferSize(n, page) == n
  }

  lemma UpToTwoPages(n: nat, page: nat)
    requires 0 < n <= 2 * page
    ensures AdjustBufferSize(n, page) == if n <= page then page else 2 * page
  {
    if n > page { assert AdjustBufferSize(n - page, page) == page + AdjustBufferSize(0, page); }
  }

  lemma {:induction false} AdjustedIsWhole(n: nat, page: nat)
    requires page > 0
    ensures Whole(AdjustBufferSize(n, page), page)
    decreases n
  {
    if n > page { AdjustedIsWhole(n - page, page); }
  }

  lemma {:induction false} WholeSum(m: nat, n: nat, page: nat)
    requires page > 0 && Whole(m, page) && Whole(n, page)
    ensures Whole(m + n, page)
    decreases m
  {
    if m > 0 {
      assert m >= page;
      WholeSum(m - page, n, page);
    }
  }

  lemma {:induction false} WholePower(q: nat, k: nat)
    requires q <= k
    ensures Whole(Pow2(k), Pow2(q))
    decreases k
  {
    if q < k {
      WholePower(q, k - 1);
      WholeSum(Pow2(k - 1), Pow2(k - 1), Pow2(q));
    }
  }
}
