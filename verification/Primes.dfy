/** The test service's trial division (docker_test_service/simple.py). */
module Primes {

  ghost predicate Divides(d: int, n: int)
    requires d > 0
  {
    n % d == 0
  }

  ghost predicate Prime(n: int) {
    n >= 2 && forall d | 2 <= d < n :: !Divides(d, n)
  }

  /** `int(math.floor(math.sqrt(n)))`, exact. */
  function FloorSqrt(n: nat): (s: nat)
    ensures s * s <= n < (s + 1) * (s + 1)
  {
    if n == 0 then 0
    else
      var s := FloorSqrt(n - 1);
      if (s + 1) * (s + 1) <= n then s + 1 else s
  }

  /** A divisor has a partner, and the smaller of the two is at most the root. */
  lemma SmallDivisor(n: nat, d: nat) returns (e: nat)
    requires 2 <= d < n && Divides(d, n)
    ensures 2 <= e <= FloorSqrt(n) && e < n && Divides(e, n)
  {
    var q := n / d;
    assert n == d * q;
    assert 2 <= q < n by {
      assert d * 0 == 0 && d * 1 == d && 1 * q == q;
      Grows(2, q, d, q);
    }
    e := if d <= q then d else q;
    MultipleIsDivided(d, q);
    MultipleIsDivided(q, d);
    var s := FloorSqrt(n);
    if e > s {
      Grows(s + 1, s + 1, d, q);
      assert false;
    }
  }

  lemma Grows(a: nat, b: nat, c: nat, d: nat)
    requires a <= c && b <= d
    ensures a * b <= c * d
  {
    assert a * b <= c * b by { assert (c - a) * b >= 0; }
    assert c * b <= c * d by { assert c * (d - b) >= 0; }
  }

  lemma AtLeastOnce(d: nat, k: int)
    ensures k >= 1 ==> d * k >= d
    ensures k <= -1 ==> d * k + d <= 0
  {
    if k >= 1 {
      Grows(d, 1, d, k);
    } else if k <= -1 {
      Grows(d, 1, d, -k);
      assert d * -k == -(d * k);
    }
  }

  lemma MultipleIsDivided(d: nat, q: nat)
    requires d > 0
    ensures Divides(d, d * q)
  {
    var n := d * q;
    var k := q - n / d;
    assert d * k == n % d;
    AtLeastOnce(d, k);
  }

  /** An even divisor makes the number even. */
  lemma EvenDivisor(n: nat, d: nat)
    requires d > 0 && d % 2 == 0 && Divides(d, n)
    ensures n % 2 == 0
  {
    var q, h := n / d, d / 2;
    assert n == d * q && d == 2 * h;
    assert n == 2 * (h * q);
  }

  /** No odd number from three up to `i` divides `n`. */
  ghost predicate NoneBelow(n: int, i: int) {
    forall d | 3 <= d < i && d % 2 == 1 :: !Divides(d, n)
  }

  lemma NoneNext(n: int, i: int)
    requires 3 <= i && i % 2 == 1 && n % i != 0 && NoneBelow(n, i)
    ensures NoneBelow(n, i + 2) && (i + 2) % 2 == 1
  {
  }

  lemma RootIsBelow(n: nat, i: nat)
    requires 3 <= i <= FloorSqrt(n)
    ensures i < n
  {
    Grows(3, i, FloorSqrt(n), FloorSqrt(n));
  }

  /** Trial division by the odd numbers up to the root finds every divisor of an odd number. */
  lemma NoOddDivisor(n: nat, i: int)
    requires n >= 3 && n % 2 == 1 && i > FloorSqrt(n)
    requires NoneBelow(n, i)
    ensures Prime(n)
  {
    forall d | 2 <= d < n
      ensures !Divides(d, n)
    {
      if Divides(d, n) {
        var e := SmallDivisor(n, d);
        if e % 2 == 0 {
          EvenDivisor(n, e);
        }
        assert false;
      }
    }
  }

  /** `is_prime` says prime for a prime, and for everything below two as well. */
  method IsPrime(n: int) returns (r: bool)
    ensures r <==> n < 2 || Prime(n)
  {
    if n < 3 {
      return true;
    } else if n % 2 == 0 {
      assert Divides(2, n);
      return false;
    }
    var root := FloorSqrt(n);
    var i: nat := 3;
    while i < root + 1
      invariant i % 2 == 1 && 3 <= i
      invariant NoneBelow(n, i)
      decreases root + 1 - i
    {
      if n % i == 0 {
        assert Divides(i, n);
        RootIsBelow(n, i);
        return false;
      }
      NoneNext(n, i);
      i := i + 2;
    }
    NoOddDivisor(n, i);
    return true;
  }

  /** `cpu_bound`: the numbers of the range that pass, in order. */
  method CpuBound(target: nat) returns (found: seq<int>)
    ensures forall k :: k in found <==> 0 <= k < target && (k < 2 || Prime(k))
    ensures forall i, j | 0 <= i < j < |found| :: found[i] < found[j]
  {
    found := [];
    for n := 0 to target
      invariant forall k :: k in found <==> 0 <= k < n && (k < 2 || Prime(k))
      invariant forall i, j | 0 <= i < j < |found| :: found[i] < found[j]
    {
      var p := IsPrime(n);
      if p {
        assert forall i | 0 <= i < |found| :: found[i] in found;
        found := found + [n];
      }
    }
  }
}
