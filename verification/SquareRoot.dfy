// Integer square roots: the exact roots, and the two Newton loops that compute them.
module SquareRoot {
  import opened Wrappers

  predicate IsRoot(n: nat, r: nat) {
    r * r <= n < (r + 1) * (r + 1)
  }

  function FloorSqrt(n: nat): (r: nat)
    ensures IsRoot(n, r)
  {
    if n == 0 then 0
    else
      var r := FloorSqrt(n - 1);
      if (r + 1) * (r + 1) <= n then RootAdvances(n, r); r + 1 else r
  }

  lemma RootAdvances(n: nat, r: nat)
    requires n > 0 && IsRoot(n - 1, r) && (r + 1) * (r + 1) <= n
    ensures IsRoot(n, r + 1)
  {
  }

  lemma SquareGrows(a: nat, b: nat)
    requires a <= b
    ensures a * a <= b * b && (a < b ==> a * a < b * b)
  {
  }

  // x*x <= n exactly when x is at most the root.
  lemma RootIsGreatest(n: nat, x: nat)
    ensures x * x <= n <==> x <= FloorSqrt(n)
  {
    var r := FloorSqrt(n);
    if x <= r {
      SquareGrows(x, r);
    } else {
      SquareGrows(r + 1, x);
    }
  }

  lemma RootIsUnique(n: nat, r: nat)
    requires IsRoot(n, r)
    ensures r == FloorSqrt(n)
  {
    RootIsGreatest(n, r);
    RootIsGreatest(n, r + 1);
  }

  // ---- Newton steps ----------------------------------------------------------------------

  lemma MeanSquare(a: nat, b: nat)
    ensures 4 * (a * b) <= (a + b) * (a + b)
  {
    assert (a + b) * (a + b) - 4 * (a * b) == (a - b) * (a - b);
  }

  lemma DoubledSquare(s: nat, y: nat, m: nat)
    requires s <= 2 * y && 4 * m <= s * s
    ensures m <= y * y
  {
    SquareGrows(s, 2 * y);
    assert (2 * y) * (2 * y) == 4 * (y * y);
  }

  lemma DivisionBounds(n: nat, x: nat)
    requires x > 0
    ensures (n / x) * x <= n < (n / x + 1) * x
  {
  }

  // From any x the next iterate is at or above the root.
  lemma NewtonStaysAbove(n: nat, x: nat)
    requires x > 0
    ensures var y := (x + n / x) / 2; n < (y + 1) * (y + 1) && (n > 0 ==> y > 0)
  {
    var q, y := n / x, (x + n / x) / 2;
    DivisionBounds(n, x);
    MeanSquare(q + 1, x);
    DoubledSquare(q + 1 + x, y + 1, (q + 1) * x);
  }

  // An iterate that no longer falls is the root.
  lemma NewtonStops(n: nat, x: nat)
    requires x > 0 && (x + n / x) / 2 >= x && n < (x + 1) * (x + 1)
    ensures IsRoot(n, x)
  {
    assert n / x >= x;
    assert (n / x) * x <= n;
    assert x * x <= (n / x) * x;
  }

  function BitLength(n: nat): nat {
    if n < 2 then 1 else 1 + BitLength(n / 2)
  }

  function Pow2(k: nat): (r: nat)
    ensures r > 0
  {
    if k == 0 then 1 else 2 * Pow2(k - 1)
  }

  lemma {:induction false} BelowPow2(n: nat)
    ensures n < Pow2(BitLength(n))
  {
    if n >= 2 {
      BelowPow2(n / 2);
    } else {
      assert Pow2(1) == 2 * Pow2(0);
    }
  }

  lemma {:induction false} Pow2Sum(a: nat, b: nat)
    ensures Pow2(a + b) == Pow2(a) * Pow2(b)
  {
    if a > 0 {
      Pow2Sum(a - 1, b);
      assert Pow2(a + b) == 2 * (Pow2(a - 1) * Pow2(b));
    }
  }

  lemma {:induction false} Pow2Grows(a: nat, b: nat)
    requires a <= b
    ensures Pow2(a) <= Pow2(b)
  {
    if a < b {
      Pow2Grows(a, b - 1);
    }
  }

  // The first iterate, a power of two with half the bits, is above the root.
  lemma StartsAbove(n: nat)
    ensures var x := Pow2((BitLength(n) + 1) / 2); n < x * x
  {
    var b := BitLength(n);
    var h := (b + 1) / 2;
    BelowPow2(n);
    Pow2Grows(b, h + h);
    Pow2Sum(h, h);
  }

  // sqrt of the price code.
  method Sqrt(n: int) returns (r: Result<nat>)
    ensures r == if n < 0 then Failure("negative square root") else Success(FloorSqrt(n))
  {
    if n < 0 {
      return Failure("negative square root");
    }
    if n < 2 {
      RootIsUnique(n, n);
      return Success(n);
    }
    var x := Pow2((BitLength(n) + 1) / 2);
    StartsAbove(n);
    SquareGrows(x, x + 1);
    hide Pow2, BitLength, IsRoot, FloorSqrt;
    while true
      decreases x
      invariant x > 0 && n < (x + 1) * (x + 1)
    {
      var y := (x + n / x) / 2;
      NewtonStaysAbove(n, x);
      if y >= x {
        NewtonStops(n, x);
        RootIsUnique(n, x);
        return Success(x);
      }
      x := y;
    }
  }

  // ---- rounded up ------------------------------------------------------------------------

  predicate IsCeilRoot(n: nat, r: nat) {
    n <= r * r && (r > 0 ==> (r - 1) * (r - 1) < n)
  }

  function CeilSqrt(n: nat): (r: nat)
    ensures IsCeilRoot(n, r)
  {
    var r := FloorSqrt(n);
    if r * r == n then ExactRootIsCeil(n, r); r else r + 1
  }

  lemma ExactRootIsCeil(n: nat, r: nat)
    requires r * r == n
    ensures IsCeilRoot(n, r)
  {
    if r > 0 {
      SquareGrows(r - 1, r);
    }
  }

  // The accumulator's loop: Newton from the sum itself, then one correction upwards.
  method SqrtRoundedUp(sum: nat) returns (root: nat)
    requires sum > 0
    ensures root == CeilSqrt(sum)
  {
    root := sum;
    var next := (root + 1) / 2;
    assert sum / sum == 1;
    SquareGrows(sum, sum + 1);
    assert sum <= sum * sum;
    while next < root
      decreases root
      invariant root > 0 && sum < (root + 1) * (root + 1) && next == (root + sum / root) / 2
    {
      NewtonStaysAbove(sum, root);
      root := next;
      next := (root + sum / root) / 2;
    }
    NewtonStops(sum, root);
    RootIsUnique(sum, root);
    if root * root < sum {
      root := root + 1;
    }
  }
}
