/**
 * Garage sizing: the accepted range of requested sizes and the power-of-two array capacity
 * computed for a size (FindArrayCapacitySize), with the facts the garage relies on.
 */
module GarageCapacity {
  import opened Wrappers
  import opened Faults

  const GarageSizeLowerLimit := 1
  const GarageSizeUpperLimit := 524288   // 2^19
  const MinArrayCapacity := 4

  function Pow2(n: nat): (r: nat)
    ensures r >= 1
  {
    if n == 0 then 1 else 2 * Pow2(n - 1)
  }

  /** 2^19 is the garage size upper limit. */
  lemma Pow2UpperLimit()
    ensures Pow2(19) == GarageSizeUpperLimit
  {
    assert Pow2(1) == 2;
    assert Pow2(2) == 4;
    assert Pow2(3) == 8;
    assert Pow2(4) == 16;
    assert Pow2(5) == 32;
    assert Pow2(6) == 64;
    assert Pow2(7) == 128;
    assert Pow2(8) == 256;
    assert Pow2(9) == 512;
    assert Pow2(10) == 1024;
    assert Pow2(11) == 2048;
    assert Pow2(12) == 4096;
    assert Pow2(13) == 8192;
    assert Pow2(14) == 16384;
    assert Pow2(15) == 32768;
    assert Pow2(16) == 65536;
    assert Pow2(17) == 131072;
    assert Pow2(18) == 262144;
    assert Pow2(19) == 524288;
  }

  /** An independent definition of the powers of two: 1, or twice a power of two. */
  predicate IsPowerOfTwo(n: int)
    decreases n
  {
    n == 1 || (n >= 2 && n % 2 == 0 && IsPowerOfTwo(n / 2))
  }

  /** The sizes a garage's array may have once the garage is constructed. */
  predicate IsArrayCapacity(c: int)
  {
    IsPowerOfTwo(c) && MinArrayCapacity <= c <= GarageSizeUpperLimit
  }

  lemma {:induction false} Pow2IsPowerOfTwo(n: nat)
    ensures IsPowerOfTwo(Pow2(n))
  {
    if n > 0 {
      Pow2IsPowerOfTwo(n - 1);
      assert Pow2(n) / 2 == Pow2(n - 1);
    }
  }

  lemma {:induction false} Pow2Monotone(i: nat, j: nat)
    requires i <= j
    ensures Pow2(i) <= Pow2(j)
    decreases j - i
  {
    if i < j {
      Pow2Monotone(i, j - 1);
    }
  }

  /** Two distinct powers of two are at least a factor two apart. */
  lemma {:induction false} PowersOfTwoDouble(p: int, q: int)
    requires IsPowerOfTwo(p) && IsPowerOfTwo(q) && p < q
    ensures 2 * p <= q
    decreases q
  {
    if p != 1 {
      PowersOfTwoDouble(p / 2, q / 2);
    }
  }

  /** IsWithinGarageMinMaxRange: true, or ArgumentOutOfRangeException outside 1 - 524288. */
  function IsWithinGarageMinMaxRange(size: int): (r: Result<bool, Fault>)
    ensures r.Success? <==> GarageSizeLowerLimit <= size <= GarageSizeUpperLimit
    ensures r.Success? ==> r.value
    ensures r.Failure? ==> r.error == GarageSizeOutOfRange && ExceptionOf(r.error) == ArgumentOutOfRangeException
  {
    if size < GarageSizeLowerLimit || size > GarageSizeUpperLimit then Failure(GarageSizeOutOfRange)
    else Success(true)
  }

  /** The search FindArrayCapacitySize's loop performs from exponent i on (2^i for i = 2 .. 19, else 0). */
  function CapacitySearchFrom(size: int, i: nat): int
    requires 2 <= i <= 20
    decreases 20 - i
  {
    if i == 20 then 0
    else if size <= Pow2(i) then Pow2(i)
    else CapacitySearchFrom(size, i + 1)
  }

  /** The value FindArrayCapacitySize returns for a size. */
  function ArrayCapacityFor(size: int): int
  {
    if 0 < size < 5 then MinArrayCapacity else CapacitySearchFrom(size, 2)
  }

  lemma {:induction false} CapacitySearchFindsPowerOfTwo(size: int, i: nat)
    requires 2 <= i <= 19
    requires Pow2(i - 1) < size <= GarageSizeUpperLimit
    ensures IsPowerOfTwo(CapacitySearchFrom(size, i))
    ensures size <= CapacitySearchFrom(size, i) < 2 * size
    ensures CapacitySearchFrom(size, i) <= GarageSizeUpperLimit
    decreases 20 - i
  {
    Pow2UpperLimit();
    if size <= Pow2(i) {
      Pow2IsPowerOfTwo(i);
      Pow2Monotone(i, 19);
    } else {
      if i == 19 {
        assert false;
      }
      CapacitySearchFindsPowerOfTwo(size, i + 1);
    }
  }

  /**
   * For every admissible size the capacity is the smallest power of two that is at least
   * the size and at least 4, and it never exceeds 2^19.
   */
  lemma ArrayCapacityIsSmallestPowerOfTwo(size: int)
    requires GarageSizeLowerLimit <= size <= GarageSizeUpperLimit
    ensures IsArrayCapacity(ArrayCapacityFor(size))
    ensures size <= ArrayCapacityFor(size)
    ensures forall p :: IsPowerOfTwo(p) && MinArrayCapacity <= p && size <= p ==> ArrayCapacityFor(size) <= p
  {
    var c := ArrayCapacityFor(size);
    if size < 5 {
      assert IsPowerOfTwo(2) && IsPowerOfTwo(4);
    } else {
      assert Pow2(1) == 2;
      CapacitySearchFindsPowerOfTwo(size, 2);
      forall p | IsPowerOfTwo(p) && MinArrayCapacity <= p && size <= p
        ensures c <= p
      {
        if p < c {
          PowersOfTwoDouble(p, c);
        }
      }
    }
  }

  lemma {:induction false} CapacitySearchAboveLimit(size: int, i: nat)
    requires 2 <= i <= 20
    requires size > GarageSizeUpperLimit
    ensures CapacitySearchFrom(size, i) == 0
    decreases 20 - i
  {
    if i < 20 {
      Pow2UpperLimit();
      Pow2Monotone(i, 19);
      CapacitySearchAboveLimit(size, i + 1);
    }
  }

  /** Sizes outside the range: 4 for every size up to 4 (including 0 and negatives), 0 above 2^19. */
  lemma ArrayCapacityOutsideRange(size: int)
    ensures size <= 4 ==> ArrayCapacityFor(size) == MinArrayCapacity
    ensures size > GarageSizeUpperLimit ==> ArrayCapacityFor(size) == 0
  {
    if size > GarageSizeUpperLimit {
      CapacitySearchAboveLimit(size, 2);
    }
  }

  /** The capacities named by the garage tests: 1, 2 and 4 give 4; 5 gives 8; 2^19 gives 2^19. */
  lemma ArrayCapacityExamples()
    ensures ArrayCapacityFor(1) == 4 && ArrayCapacityFor(2) == 4 && ArrayCapacityFor(4) == 4
    ensures ArrayCapacityFor(5) == 8
    ensures ArrayCapacityFor(GarageSizeUpperLimit) == GarageSizeUpperLimit
  {
    ArrayCapacityIsSmallestPowerOfTwo(GarageSizeUpperLimit);
    Pow2UpperLimit();
    Pow2IsPowerOfTwo(19);
  }

  /**
   * An index inside an array whose length is already a garage capacity never asks for a
   * larger capacity: this is why `Capacity = nextIndex + 1` in AddVehicle never reallocates.
   */
  lemma ArrayCapacityCoversIndex(n: int, c: int)
    requires IsArrayCapacity(c)
    requires GarageSizeLowerLimit <= n <= c
    ensures ArrayCapacityFor(n) <= c
    ensures ArrayCapacityFor(c) == c
  {
    ArrayCapacityIsSmallestPowerOfTwo(n);
    ArrayCapacityIsSmallestPowerOfTwo(c);
  }

  /** FindArrayCapacitySize: a for loop over the exponents 2 .. 19 that breaks at the first power of two that fits. */
  method FindArrayCapacitySize(size: int) returns (result: int)
    ensures result == ArrayCapacityFor(size)
    ensures GarageSizeLowerLimit <= size <= GarageSizeUpperLimit ==> IsArrayCapacity(result) && size <= result
    ensures size > GarageSizeUpperLimit ==> result == 0
  {
    result := 0;
    if size > 0 && size < 5 {
      result := 4;
    } else {
      for i := 2 to 20
        invariant result == 0
        invariant CapacitySearchFrom(size, i) == ArrayCapacityFor(size)
      {
        var arraySizePowerOfTwoUpperLimit := Pow2(i);
        if size <= arraySizePowerOfTwoUpperLimit {
          result := arraySizePowerOfTwoUpperLimit;
          break;
        }
      }
    }
    if GarageSizeLowerLimit <= size <= GarageSizeUpperLimit {
      ArrayCapacityIsSmallestPowerOfTwo(size);
    }
    ArrayCapacityOutsideRange(size);
  }
}
