/** A model of `qlibs::default_allocator_policy`: the capacity growth rule of
    an allocator. An empty buffer grows to 8 elements; any other capacity is
    doubled in `std::size_t`, that is modulo 2^64. */
module Allocator {

  /** 2^64: unsigned `std::size_t` arithmetic is taken modulo this. */
  const SizeModulus: int := 0x1_0000_0000_0000_0000

  /** 2^63: the least capacity whose doubling wraps. */
  const WrapPoint: int := 0x8000_0000_0000_0000

  /** `std::size_t` on a 64-bit target. */
  newtype SizeT = n: int | 0 <= n < 0x1_0000_0000_0000_0000

  /** 2^k. */
  function Pow2(k: nat): (r: nat)
    ensures r >= 1
  {
    if k == 0 then 1 else 2 * Pow2(k - 1)
  }

  /** The policy object has no state; `grow` is a `const` member. */
  datatype DefaultAllocatorPolicy = DefaultAllocatorPolicy {

    /** `grow(current)`: the next capacity. Total, it cannot fail, and it
        reads nothing but its argument. The result is always even, and it
        is zero for exactly one input, the wrap point 2^63. */
    function Grow(current: SizeT): (r: SizeT)
      ensures r as int % 2 == 0
      ensures r == 0 <==> current as int == WrapPoint
    {
      if current == 0 then 8 else ((current as int * 2) % SizeModulus) as SizeT
    }

    /** The capacity after `k` successive calls of `Grow`, starting from
        `current`. */
    function GrowTimes(current: SizeT, k: nat): SizeT
    {
      if k == 0 then current else Grow(GrowTimes(current, k - 1))
    }
  }

  /** An empty buffer grows to 8. */
  lemma GrowOfEmpty(p: DefaultAllocatorPolicy)
    ensures p.Grow(0) == 8
  {
  }

  /** Below the wrap point a non-empty capacity doubles exactly, so it
      strictly increases. */
  lemma GrowDoubles(p: DefaultAllocatorPolicy, n: SizeT)
    requires 0 < n as int < WrapPoint
    ensures p.Grow(n) as int == 2 * n as int
    ensures p.Grow(n) > n
  {
  }

  /** From the wrap point on, doubling loses 2^64, so the "grown" capacity
      is strictly smaller than the current one. */
  lemma GrowWraps(p: DefaultAllocatorPolicy, n: SizeT)
    requires WrapPoint <= n as int
    ensures p.Grow(n) as int == 2 * n as int - SizeModulus
    ensures p.Grow(n) < n
  {
  }

  /** On non-empty capacities below the wrap point, `Grow` is strictly
      monotone. */
  lemma GrowMonotone(p: DefaultAllocatorPolicy, m: SizeT, n: SizeT)
    requires 0 < m as int && m as int < n as int && n as int < WrapPoint
    ensures p.Grow(m) < p.Grow(n)
  {
    GrowDoubles(p, m);
    GrowDoubles(p, n);
  }

  /** Monotonicity does not extend to the empty capacity, which `Grow` maps
      to a larger result than it maps 1 to. */
  lemma GrowNotMonotoneAtEmpty(p: DefaultAllocatorPolicy)
    ensures p.Grow(0) > p.Grow(1)
  {
  }

  lemma {:induction false} Pow2Add(a: nat, b: nat)
    ensures Pow2(a + b) == Pow2(a) * Pow2(b)
  {
    if b > 0 {
      Pow2Add(a, b - 1);
      calc {
        Pow2(a + b);
        2 * Pow2(a + b - 1);
        2 * (Pow2(a) * Pow2(b - 1));
        Pow2(a) * (2 * Pow2(b - 1));
      }
    }
  }

  /** Starting from an empty buffer, `k >= 1` growths give 8 * 2^(k-1), as
      long as that value is below 2^64. */
  lemma {:induction false} GrowTimesFromEmpty(p: DefaultAllocatorPolicy, k: nat)
    requires 1 <= k && 8 * Pow2(k - 1) < SizeModulus
    ensures p.GrowTimes(0, k) as int == 8 * Pow2(k - 1)
  {
    if k > 1 {
      GrowTimesFromEmpty(p, k - 1);
      var prev := p.GrowTimes(0, k - 1);
      assert 0 < prev as int < WrapPoint;
      GrowDoubles(p, prev);
    }
  }

  lemma {:induction false} GrowTimesAdd(p: DefaultAllocatorPolicy, n: SizeT, a: nat, b: nat)
    ensures p.GrowTimes(n, a + b) == p.GrowTimes(p.GrowTimes(n, a), b)
  {
    if b > 0 {
      GrowTimesAdd(p, n, a, b - 1);
    }
  }

  /** Growing an empty buffer 61 times reaches 2^63, and the 62nd growth
      wraps to zero: the capacity collapses back to empty. */
  lemma GrowTimesWrapsToEmpty(p: DefaultAllocatorPolicy)
    ensures p.GrowTimes(0, 61) as int == WrapPoint
    ensures p.GrowTimes(0, 62) == 0
  {
    assert Pow2(10) == 0x400;
    Pow2Add(10, 10);
    assert Pow2(20) == 0x10_0000;
    Pow2Add(20, 20);
    assert Pow2(40) == 0x100_0000_0000;
    Pow2Add(40, 20);
    assert Pow2(60) == 0x1000_0000_0000_0000;
    GrowTimesFromEmpty(p, 61);
    assert p.GrowTimes(0, 62) == p.Grow(p.GrowTimes(0, 61));
  }

  /** Consequently the capacities reached from an empty buffer repeat with
      period 62. */
  lemma GrowTimesPeriodic(p: DefaultAllocatorPolicy, k: nat)
    ensures p.GrowTimes(0, k + 62) == p.GrowTimes(0, k)
  {
    GrowTimesAdd(p, 0, 62, k);
    GrowTimesWrapsToEmpty(p);
  }
}
