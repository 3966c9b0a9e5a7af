/** Sums of a numbered family of reals. */
module Sums {

  function Total(n: nat, f: int -> real): real {
    if n == 0 then 0.0 else Total(n - 1, f) + f(n - 1)
  }

  lemma {:induction false} TotalAtMost(n: nat, f: int -> real, g: int -> real)
    requires forall i :: 0 <= i < n ==> f(i) <= g(i)
    ensures Total(n, f) <= Total(n, g)
  {
    if n > 0 { TotalAtMost(n - 1, f, g); }
  }

  lemma {:induction false} TotalPlus(n: nat, f: int -> real, g: int -> real, h: int -> real)
    requires forall i :: 0 <= i < n ==> f(i) + g(i) == h(i)
    ensures Total(n, f) + Total(n, g) == Total(n, h)
  {
    if n > 0 { TotalPlus(n - 1, f, g, h); }
  }

  lemma {:induction false} TotalChanged(n: nat, f: int -> real, g: int -> real, k: nat)
    requires k < n && forall i :: 0 <= i < n && i != k ==> f(i) == g(i)
    ensures Total(n, g) == Total(n, f) - f(k) + g(k)
  {
    if n - 1 > k { TotalChanged(n - 1, f, g, k); } else { TotalSame(n - 1, f, g); }
  }

  lemma {:induction false} TotalSame(n: nat, f: int -> real, g: int -> real)
    requires forall i :: 0 <= i < n ==> f(i) == g(i)
    ensures Total(n, f) == Total(n, g)
  {
    TotalAtMost(n, f, g);
    TotalAtMost(n, g, f);
  }

  /** A sum is unchanged by further terms that are zero. */
  lemma {:induction false} TotalExtends(n: nat, m: nat, f: int -> real)
    requires n <= m && forall i :: n <= i < m ==> f(i) == 0.0
    ensures Total(m, f) == Total(n, f)
  {
    if n < m { TotalExtends(n, m - 1, f); }
  }

  lemma TotalNext(n: nat, f: int -> real)
    ensures Total(n + 1, f) == Total(n, f) + f(n)
  {
  }

  lemma {:induction false} ZeroTotal(n: nat, zero: int -> real)
    requires forall i :: 0 <= i < n ==> zero(i) == 0.0
    ensures Total(n, zero) == 0.0
  {
    if n > 0 { ZeroTotal(n - 1, zero); }
  }
}
