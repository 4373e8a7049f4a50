/** Uniform-stride ray subsampling shared by both laser observation models.
    Both models compute `ray_step = max(1, (rays_size - 1) / (budget - 1))` in
    64-bit unsigned arithmetic and then visit `0, ray_step, 2 * ray_step, ...`
    while the index is below `rays_size`. */
module RayStride {

  /** 2^64: the modulus of `std::size_t` arithmetic. */
  const SIZE_MODULUS: nat := 0x1_0000_0000_0000_0000

  /** Unsigned 64-bit subtraction, wrapping below zero. */
  function SizeSub(a: nat, b: nat): (d: nat)
    requires a < SIZE_MODULUS && b < SIZE_MODULUS
    ensures d < SIZE_MODULUS
    ensures a >= b ==> d == a - b
    ensures a < b ==> d == SIZE_MODULUS + a - b
  {
    (a - b) % SIZE_MODULUS
  }

  /** `std::max(1ul, (n - 1) / (budget - 1))` for `n` rays and a budget of
      `budget` rays. */
  function RayStep(n: nat, budget: nat): (step: nat)
    requires n < SIZE_MODULUS && 2 <= budget < SIZE_MODULUS
    ensures step >= 1
    ensures n >= 1 ==> step <= n
    ensures n >= 1 ==> (step == 1 || step * (budget - 1) <= n - 1)
    ensures n == 0 ==> step == (SIZE_MODULUS - 1) / (budget - 1)
  {
    var q := SizeSub(n, 1) / SizeSub(budget, 1);
    if 1 < q then q else 1
  }

  /** The indices `i, i + step, i + 2 * step, ...` that stay below `n`. */
  function StrideFrom(i: nat, n: nat, step: nat): (s: seq<nat>)
    requires step >= 1
    ensures forall k :: 0 <= k < |s| ==> i <= s[k] < n
    decreases n - i
  {
    if i < n then [i] + StrideFrom(i + step, n, step) else []
  }

  /** The indices a loop `for (i = 0; i < n; i += step)` visits. */
  function StrideIndices(n: nat, step: nat): seq<nat>
    requires step >= 1
  {
    StrideFrom(0, n, step)
  }

  /** The k-th visited index is `i + k * step`, every index is below `n`,
      and the sequence stops at the first multiple that reaches `n`. */
  lemma {:induction false} StrideFromShape(i: nat, n: nat, step: nat)
    requires step >= 1
    ensures var s := StrideFrom(i, n, step);
      && (forall k :: 0 <= k < |s| ==> s[k] == i + k * step && s[k] < n)
      && (i < n ==> |s| >= 1 && i + (|s| - 1) * step < n <= i + |s| * step)
      && (i >= n ==> s == [])
    decreases n - i
  {
    var s := StrideFrom(i, n, step);
    if i < n {
      var t := StrideFrom(i + step, n, step);
      StrideFromShape(i + step, n, step);
      assert s == [i] + t;
      forall k | 0 <= k < |s|
        ensures s[k] == i + k * step && s[k] < n
      {
        if k > 0 {
          assert s[k] == t[k - 1];
          assert (k - 1) * step + step == k * step;
        }
      }
      if i + step < n {
        assert (|t| - 1) * step + step == (|s| - 1) * step;
        assert |t| * step + step == |s| * step;
      }
    }
  }

  /** Every index of `StrideIndices(n, step)` is a valid position in a scan
      of `n` rays. */
  lemma StrideIndicesBelow(n: nat, step: nat)
    requires step >= 1
    ensures forall k :: 0 <= k < |StrideIndices(n, step)| ==> StrideIndices(n, step)[k] < n
  {
    StrideFromShape(0, n, step);
  }

  lemma MulLeftMonotone(a: int, b: int, c: int)
    requires a <= b && c >= 0
    ensures c * a <= c * b
  {
  }

  /** Euclidean division is determined by quotient and remainder. */
  lemma DivModUnique(x: int, step: int, q: int, r: int)
    requires step > 0 && x == step * q + r && 0 <= r < step
    ensures x / step == q && x % step == r
  {
    var d := q - x / step;
    assert x == step * (x / step) + x % step;
    assert step * d == step * q - step * (x / step);
    assert step * d == x % step - r;
    if d >= 1 {
      MulLeftMonotone(1, d, step);
      assert false;
    }
    if d <= -1 {
      MulLeftMonotone(d, -1, step);
      assert false;
    }
  }

  lemma StrideMemberIsMultiple(n: nat, step: nat, k: nat)
    requires step >= 1 && k < |StrideIndices(n, step)|
    ensures StrideIndices(n, step)[k] < n && StrideIndices(n, step)[k] % step == 0
  {
    StrideFromShape(0, n, step);
    var x := StrideIndices(n, step)[k];
    assert x == step * k + 0;
    DivModUnique(x, step, k, 0);
  }

  lemma MultipleIsStrideMember(n: nat, step: nat, x: nat)
    requires step >= 1 && x < n && x % step == 0
    ensures x / step < |StrideIndices(n, step)| && StrideIndices(n, step)[x / step] == x
  {
    var s := StrideIndices(n, step);
    StrideFromShape(0, n, step);
    var k := x / step;
    assert x == step * k by {
      assert x == step * (x / step) + x % step;
    }
    assert n <= |s| * step == step * |s|;
    if k >= |s| {
      MulLeftMonotone(|s|, k, step);
      assert false;
    }
    assert s[k] == 0 + k * step;
  }

  /** The loop visits exactly the multiples of `step` that are below `n`. */
  lemma StrideIndicesMembership(n: nat, step: nat, x: nat)
    requires step >= 1
    ensures x in StrideIndices(n, step) <==> x < n && x % step == 0
  {
    var s := StrideIndices(n, step);
    if x in s {
      var k :| 0 <= k < |s| && s[k] == x;
      StrideMemberIsMultiple(n, step, k);
    }
    if x < n && x % step == 0 {
      MultipleIsStrideMember(n, step, x);
    }
  }

  /** The arithmetic core of StrideCountBound: `c` multiples of `step`
      fit below `n`, where `step` is at least the rounded-down ratio
      `q = (n - 1) / b`. */
  lemma StrideCountArith(n: nat, b: nat, q: nat, step: nat, c: nat)
    requires b >= 1 && step >= 1 && q <= step && c >= 1
    requires n - 1 < b * q + b
    requires (c - 1) * step <= n - 1
    ensures c <= 2 * b
  {
    MulLeftMonotone(q + 1, 2 * step, b);
    assert b * (q + 1) == b * q + b;
    assert step * (c - 1) < step * (2 * b);
    if c - 1 >= 2 * b {
      MulLeftMonotone(2 * b, c - 1, step);
      assert false;
    }
  }

  /** The number of visited rays is at most `2 * budget - 2`: the budget
      bounds the work per particle, but the stride is rounded down, so the
      budget itself can be exceeded (see StrideCanExceedBudget). */
  lemma StrideCountBound(n: nat, budget: nat)
    requires n < SIZE_MODULUS && 2 <= budget < SIZE_MODULUS
    ensures |StrideIndices(n, RayStep(n, budget))| <= 2 * budget - 2
  {
    var step := RayStep(n, budget);
    var s := StrideIndices(n, step);
    StrideFromShape(0, n, step);
    if n >= 1 {
      var b := budget - 1;
      var q := (n - 1) / b;
      assert step == (if 1 < q then q else 1);
      assert n - 1 < b * q + b by {
        assert n - 1 == b * q + (n - 1) % b;
      }
      StrideCountArith(n, b, q, step, |s|);
    }
  }

  /** With 6 rays and a budget of 4 the stride is 1 and all 6 rays are
      visited. */
  lemma StrideCanExceedBudget()
    ensures RayStep(6, 4) == 1
    ensures |StrideIndices(6, RayStep(6, 4))| == 6
  {
    assert SizeSub(6, 1) / SizeSub(4, 1) == 1;
    StrideFromShape(0, 6, 1);
  }

  /** Ten rays with a budget of three: stride 4, rays 0, 4 and 8. */
  lemma StrideTenRaysBudgetThree()
    ensures RayStep(10, 3) == 4
    ensures StrideIndices(10, RayStep(10, 3)) == [0, 4, 8]
  {
    assert SizeSub(10, 1) / SizeSub(3, 1) == 4;
    assert StrideFrom(12, 10, 4) == [];
    assert StrideFrom(8, 10, 4) == [8];
    assert StrideFrom(4, 10, 4) == [4, 8];
  }

  /** An empty scan: `rays_size - 1` wraps to 2^64 - 1, the stride is huge,
      and no ray is visited. */
  lemma StrideEmptyScan(budget: nat)
    requires 2 <= budget < SIZE_MODULUS
    ensures RayStep(0, budget) == (SIZE_MODULUS - 1) / (budget - 1)
    ensures StrideIndices(0, RayStep(0, budget)) == []
  {
  }
}
