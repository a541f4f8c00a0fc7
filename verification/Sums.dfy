/** Finite sums over lists, as the planner's `lpSum` builds them. */
module Sums {

  function Sum<T>(xs: seq<T>, f: T -> real): real {
    if xs == [] then 0.0 else f(xs[0]) + Sum(xs[1..], f)
  }

  function Total<T>(xs: seq<T>, f: T -> int): int {
    if xs == [] then 0 else f(xs[0]) + Total(xs[1..], f)
  }

  predicate Distinct<T(==)>(xs: seq<T>) {
    forall i, j | 0 <= i < j < |xs| :: xs[i] != xs[j]
  }

  lemma {:induction false} SumEqual<T>(xs: seq<T>, f: T -> real, g: T -> real)
    requires forall x | x in xs :: f(x) == g(x)
    ensures Sum(xs, f) == Sum(xs, g)
  {
    if xs == [] {
    } else {
      SumEqual(xs[1..], f, g);
    }
  }

  lemma {:induction false} SumZero<T>(xs: seq<T>, f: T -> real)
    requires forall x | x in xs :: f(x) == 0.0
    ensures Sum(xs, f) == 0.0
  {
    if xs == [] {
    } else {
      SumZero(xs[1..], f);
    }
  }

  /** Zero everywhere but perhaps at one element. */
  lemma {:induction false} SumAt<T>(xs: seq<T>, f: T -> real, x: T)
    requires Distinct(xs) && x in xs
    requires forall y | y in xs && y != x :: f(y) == 0.0
    ensures Sum(xs, f) == f(x)
  {
    if xs[0] == x {
      SumZero(xs[1..], f);
    } else {
      SumAt(xs[1..], f, x);
    }
  }

  lemma {:induction false} SumPlus<T>(xs: seq<T>, f: T -> real, g: T -> real)
    ensures Sum(xs, x => f(x) + g(x)) == Sum(xs, f) + Sum(xs, g)
  {
    if xs == [] {
    } else {
      SumPlus(xs[1..], f, g);
    }
  }

  /** Adding a table up by rows or by columns gives the same. */
  lemma {:induction false} SumSwap<A, B>(xs: seq<A>, ys: seq<B>, f: (A, B) -> real, rows: A -> real, columns: B -> real)
    requires forall a | a in xs :: rows(a) == RowSum(ys, f, a)
    requires forall b | b in ys :: columns(b) == ColumnSum(xs, f, b)
    ensures Sum(xs, rows) == Sum(ys, columns)
  {
    if xs == [] {
      SumZero(ys, columns);
    } else {
      var first := b => f(xs[0], b);
      var rest := b => ColumnSum(xs[1..], f, b);
      SumSwap(xs[1..], ys, f, rows, rest);
      SumPlus(ys, first, rest);
      SumEqual(ys, columns, b => first(b) + rest(b));
      SumEqual(ys, first, b => f(xs[0], b));
    }
  }

  function RowSum<A, B>(ys: seq<B>, f: (A, B) -> real, a: A): real {
    Sum(ys, b => f(a, b))
  }

  function ColumnSum<A, B>(xs: seq<A>, f: (A, B) -> real, b: B): real {
    Sum(xs, a => f(a, b))
  }

  lemma RowIs<A, B>(ys: seq<B>, f: (A, B) -> real, a: A, row: B -> real)
    requires forall b | b in ys :: row(b) == f(a, b)
    ensures Sum(ys, row) == RowSum(ys, f, a)
  {
    SumEqual(ys, row, b => f(a, b));
  }

  lemma ColumnIs<A, B>(xs: seq<A>, f: (A, B) -> real, b: B, column: A -> real)
    requires forall a | a in xs :: column(a) == f(a, b)
    ensures Sum(xs, column) == ColumnSum(xs, f, b)
  {
    SumEqual(xs, column, a => f(a, b));
  }

  lemma {:induction false} TotalEqual<T>(xs: seq<T>, f: T -> int, g: T -> int)
    requires forall x | x in xs :: f(x) == g(x)
    ensures Total(xs, f) == Total(xs, g)
  {
    if xs == [] {
    } else {
      TotalEqual(xs[1..], f, g);
    }
  }

  lemma {:induction false} TotalNonNegative<T>(xs: seq<T>, f: T -> int)
    requires forall x | x in xs :: f(x) >= 0
    ensures Total(xs, f) >= 0
    ensures Total(xs, f) == 0 ==> forall x | x in xs :: f(x) == 0
  {
    if xs == [] {
    } else {
      TotalNonNegative(xs[1..], f);
    }
  }

  lemma {:induction false} TotalZero<T>(xs: seq<T>, f: T -> int)
    requires forall x | x in xs :: f(x) == 0
    ensures Total(xs, f) == 0
  {
    if xs == [] {
    } else {
      TotalZero(xs[1..], f);
    }
  }

  lemma {:induction false} TotalAt<T>(xs: seq<T>, f: T -> int, x: T)
    requires Distinct(xs) && x in xs
    requires forall y | y in xs && y != x :: f(y) == 0
    ensures Total(xs, f) == f(x)
  {
    if xs[0] == x {
      TotalZero(xs[1..], f);
    } else {
      TotalAt(xs[1..], f, x);
    }
  }

  /** Non-negative whole numbers that add up to one: one of them is one, and the
    * others are zero. */
  lemma {:induction false} TotalOne<T>(xs: seq<T>, f: T -> int) returns (x: T)
    requires Distinct(xs) && Total(xs, f) == 1
    requires forall y | y in xs :: f(y) >= 0
    ensures x in xs && f(x) == 1
    ensures forall y | y in xs && y != x :: f(y) == 0
  {
    TotalNonNegative(xs[1..], f);
    if f(xs[0]) == 1 {
      x := xs[0];
    } else {
      x := TotalOne(xs[1..], f);
    }
  }
}
