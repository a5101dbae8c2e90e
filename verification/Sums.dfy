/** Sums of reals over finite sets of names, in no particular order. */
module Sums {

  /** Division, with nothing over nothing. */
  function Over(a: real, b: real): real {
    if b == 0.0 then 0.0 else a / b
  }

  ghost function SumOver(names: set<string>, f: string -> real): real {
    if names == {} then 0.0
    else
      var name :| name in names;
      f(name) + SumOver(names - {name}, f)
  }

  /** Any name can be taken out first. */
  lemma {:induction false} SumRemoves(names: set<string>, name: string, f: string -> real)
    requires name in names
    ensures SumOver(names, f) == f(name) + SumOver(names - {name}, f)
  {
    var first :| first in names && SumOver(names, f) == f(first) + SumOver(names - {first}, f);
    if first != name {
      SumRemoves(names - {first}, name, f);
      SumRemoves(names - {name}, first, f);
      assert names - {first} - {name} == names - {name} - {first};
    }
  }

  lemma {:induction false} SumAgrees(names: set<string>, f: string -> real, g: string -> real)
    requires forall name <- names :: f(name) == g(name)
    ensures SumOver(names, f) == SumOver(names, g)
  {
    if names != {} {
      var name :| name in names;
      SumRemoves(names, name, f);
      SumRemoves(names, name, g);
      SumAgrees(names - {name}, f, g);
    }
  }

  /** Names where `f` is zero do not matter. */
  lemma {:induction false} SumExtends(some: set<string>, all: set<string>, f: string -> real)
    requires some <= all && forall name <- all :: name !in some ==> f(name) == 0.0
    ensures SumOver(all, f) == SumOver(some, f)
  {
    if some != all {
      var name :| name in all && name !in some;
      SumRemoves(all, name, f);
      SumExtends(some, all - {name}, f);
    }
  }

  lemma {:induction false} SumNonNegative(names: set<string>, f: string -> real)
    requires forall name <- names :: f(name) >= 0.0
    ensures SumOver(names, f) >= 0.0
  {
    if names != {} {
      var name :| name in names;
      SumRemoves(names, name, f);
      SumNonNegative(names - {name}, f);
    }
  }

  lemma OverIs(a: real, b: real, value: real)
    requires b != 0.0 && value * b == a
    ensures Over(a, b) == value
  {
  }

  lemma OverTimes(a: real, b: real)
    requires b != 0.0
    ensures Over(a, b) * b == a
  {
  }

  lemma OverSum(a: real, b: real, c: real, j: real, k: real, n: real)
    requires n != 0.0
    ensures Over(a + j * b + k * c, n) == Over(a, n) + j * Over(b, n) + k * Over(c, n)
  {
    var p, q, r := Over(a, n), Over(b, n), Over(c, n);
    OverTimes(a, n);
    OverTimes(b, n);
    OverTimes(c, n);
    assert (j * q) * n == j * (q * n);
    assert (k * r) * n == k * (r * n);
    assert (p + j * q + k * r) * n == p * n + (j * q) * n + (k * r) * n;
    OverIs(a + j * b + k * c, n, p + j * q + k * r);
  }
}
