/** The power of two nearest to an estimate of the memory block size. */
module NearestPower {

  function Pow2(n: nat): (p: nat)
    ensures p >= 1 && p >= n
  {
    if n == 0 then 1 else 2 * Pow2(n - 1)
  }

  ghost predicate IsPow2(p: int) {
    exists n: nat :: p == Pow2(n)
  }

  /** The powers of two: 1 is the only odd one, 0 is none, and doubling and halving leads from one to
      another. */
  lemma PowersOfTwo(p: nat)
    ensures IsPow2(1) && !IsPow2(0)
    ensures IsPow2(p) && p % 2 == 1 ==> p == 1
    ensures IsPow2(2 * p) <==> IsPow2(p)
  {
    assert Pow2(0) == 1;
    if IsPow2(p) {
      var n: nat :| p == Pow2(n);
      assert Pow2(n + 1) == 2 * p;
    }
    if IsPow2(2 * p) {
      var n: nat :| 2 * p == Pow2(n);
      assert n > 0 && Pow2(n) == 2 * Pow2(n - 1);
    }
  }

  lemma {:induction false} Pow2Grows(m: nat, n: nat)
    requires m <= n
    ensures Pow2(m) <= Pow2(n)
  {
    if m < n {
      Pow2Grows(m, n - 1);
    }
  }

  /** No power of two lies strictly between two successive ones. */
  lemma NoneBetween(n: nat, p: nat)
    requires IsPow2(p)
    ensures p <= Pow2(n) || p >= Pow2(n + 1)
  {
    var m: nat :| p == Pow2(m);
    if m <= n {
      Pow2Grows(m, n);
    } else {
      Pow2Grows(n + 1, m);
    }
  }

  /** For an estimate of at least 2, the result is a power of two, no other one is nearer, and of two
      that are equally near it is the larger. Below 2 there is no result. */
  method NearestPowerOf2(val: int) returns (r: int)
    ensures val < 2 ==> r == 0
    ensures val >= 2 ==> IsPow2(r)
    ensures val >= 2 ==> forall p: nat :: IsPow2(p) ==>
              (if r <= val then val - r else r - val) <= if p <= val then val - p else p - val
    ensures val >= 2 ==> forall p: nat :: IsPow2(p) && p != r && p - val == val - r ==> p < r
  {
    if val < 2 { return 0; }
    var higher := 1;
    var lower := 0;
    ghost var n := 0;
    while higher < val
      invariant higher == Pow2(n)
      invariant if n == 0 then higher == 1 else lower == Pow2(n - 1) && lower < val
      decreases val - higher
    {
      lower := higher;
      higher := higher * 2;
      n := n + 1;
    }
    var delta1 := val - lower;
    var delta2 := higher - val;
    forall p: nat | IsPow2(p) ensures p <= lower || p >= higher {
      NoneBetween(n - 1, p);
    }
    assert IsPow2(lower) by { assert lower == Pow2(n - 1); }
    if delta1 < delta2 { return lower; } else { return higher; }
  }
}
