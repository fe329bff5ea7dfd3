// Sums over finite sets, used to add up reservations over all orders and prices over all products.
module Sums {
  ghost function Sum<K(!new)>(s: set<K>, f: K -> int): int
    decreases |s|
  {
    if s == {} then 0 else
      var k :| k in s;
      f(k) + Sum(s - {k}, f)
  }

  // The choice made inside Sum does not matter: any member may be taken out first.
  lemma {:induction false} SumTakeOut<K(!new)>(s: set<K>, f: K -> int, k: K)
    requires k in s
    ensures Sum(s, f) == f(k) + Sum(s - {k}, f)
    decreases |s|
  {
    var c :| c in s && Sum(s, f) == f(c) + Sum(s - {c}, f);
    if c != k {
      SumTakeOut(s - {c}, f, k);
      SumTakeOut(s - {k}, f, c);
      assert s - {c} - {k} == s - {k} - {c};
    }
  }

  lemma {:induction false} SumSame<K(!new)>(s: set<K>, f: K -> int, g: K -> int)
    requires forall k :: k in s ==> f(k) == g(k)
    ensures Sum(s, f) == Sum(s, g)
    decreases |s|
  {
    if s != {} {
      var k :| k in s;
      SumTakeOut(s, f, k);
      SumTakeOut(s, g, k);
      SumSame(s - {k}, f, g);
    }
  }

  // Changing the summand at a single key (which may be new) moves the sum by the difference there.
  lemma {:induction false} SumChangeAt<K(!new)>(s: set<K>, f: K -> int, g: K -> int, k: K)
    requires k in s
    requires forall j :: j in s && j != k ==> f(j) == g(j)
    ensures Sum(s, g) - Sum(s, f) == g(k) - f(k)
  {
    SumTakeOut(s, f, k);
    SumTakeOut(s, g, k);
    SumSame(s - {k}, f, g);
  }

  lemma {:induction false} SumAtLeast<K(!new)>(s: set<K>, f: K -> int, k: K)
    requires k in s
    requires forall j :: j in s ==> f(j) >= 0
    ensures Sum(s, f) >= f(k)
  {
    SumTakeOut(s, f, k);
    SumNonNegative(s - {k}, f);
  }

  lemma {:induction false} SumNonNegative<K(!new)>(s: set<K>, f: K -> int)
    requires forall j :: j in s ==> f(j) >= 0
    ensures Sum(s, f) >= 0
    decreases |s|
  {
    if s != {} {
      var k :| k in s;
      SumTakeOut(s, f, k);
      SumNonNegative(s - {k}, f);
    }
  }

  lemma {:induction false} SumOfZeros<K(!new)>(s: set<K>, f: K -> int)
    requires forall k :: k in s ==> f(k) == 0
    ensures Sum(s, f) == 0
    decreases |s|
  {
    if s != {} {
      var k :| k in s;
      SumTakeOut(s, f, k);
      SumOfZeros(s - {k}, f);
    }
  }
}
