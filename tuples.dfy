/**
 * Flat storage of bin tuples.
 *
 * The bispectrum and polyspectrum tables hold one entry per tuple of shell
 * indices (ik[0], ..., ik[m-1]), each below nbins, in a vector of nbins^m
 * entries. The estimators move between a tuple and its flat index in three ways:
 * folding the tuple most significant digit first (index = index * nbins + ik[ii]),
 * decoding with ik[ii] = i / nbins^ii % nbins (ik[0] least significant), and
 * decoding with ik[ii] = i / nbins^(m-1-ii) % nbins (ik[0] most significant).
 * The completion passes also sort tuples in increasing order.
 */
module Tuples {

  //------------------------------------------------------------------
  // Arithmetic
  //------------------------------------------------------------------

  /** FML::power on sizes: n^m. */
  function Power(n: nat, m: nat): (r: nat)
    ensures n > 0 ==> r > 0
  {
    if m == 0 then 1 else n * Power(n, m - 1)
  }

  lemma MulNonNegative(a: int, b: int)
    requires a >= 0 && b >= 0
    ensures a * b >= 0
  {}

  lemma MulDistributes(a: int, b: int, p: int)
    ensures a * p - b * p == (a - b) * p
  {}

  lemma MulExpands(q: int, p: int, r: int, n: int)
    ensures (q * p + r) * n == q * (n * p) + r * n
  {}

  /** A quotient and a remainder in range are determined by the number they make up. */
  lemma MulUnique(q: int, r: int, q': int, r': int, p: int)
    requires p > 0 && 0 <= r < p && 0 <= r' < p && q * p + r == q' * p + r'
    ensures q == q' && r == r'
  {
    if q < q' {
      MulDistributes(q', q, p);
      MulNonNegative(q' - q - 1, p);
      MulDistributes(q' - q, 1, p);
    } else if q' < q {
      MulDistributes(q, q', p);
      MulNonNegative(q - q' - 1, p);
      MulDistributes(q - q', 1, p);
    }
  }

  /** Euclidean division of q * p + r by p, for a remainder in range. */
  lemma DivModUnique(q: int, r: int, p: int)
    requires p > 0 && 0 <= r < p
    ensures (q * p + r) / p == q && (q * p + r) % p == r
  {
    var x := q * p + r;
    MulUnique(q, r, x / p, x % p, p);
  }

  /** Dividing by n * p is dividing by n, then by p. */
  lemma NestedDiv(x: nat, n: nat, p: nat)
    requires n > 0 && p > 0
    ensures x / (n * p) == x / n / p
  {
    var q, r := x / n, x % n;
    var q2, r2 := q / p, q % p;
    MulExpands(q2, p, r2, n);
    assert x == q2 * (n * p) + (r2 * n + r);
    MulNonNegative(p - 1 - r2, n);
    MulDistributes(p - 1, r2, n);
    MulDistributes(p, 1, n);
    MulNonNegative(r2, n);
    DivModUnique(q2, r2 * n + r, n * p);
  }

  /** Appending a digit below n to a number below p stays below n * p. */
  lemma AppendBelow(f: int, e: int, n: nat, p: nat)
    requires 0 <= f < p && 0 <= e < n
    ensures 0 <= f * n + e < n * p
  {
    MulNonNegative(f, n);
    MulNonNegative(p - 1 - f, n);
    MulDistributes(p - 1, f, n);
    MulDistributes(p, 1, n);
  }

  lemma DivModIdentity(x: int, n: int)
    requires n > 0
    ensures x / n * n + x % n == x
  {}

  /** A number below n^m has a quotient by n below n^(m-1). */
  lemma QuotientBelow(x: nat, n: nat, m: nat)
    requires n > 0 && m > 0 && x < Power(n, m)
    ensures x / n < Power(n, m - 1)
  {
    var p := Power(n, m - 1);
    if x / n >= p {
      MulNonNegative(x / n - p, n);
      MulDistributes(x / n, p, n);
      assert false;
    }
  }

  //------------------------------------------------------------------
  // Tuples as digit sequences
  //------------------------------------------------------------------

  /** Every entry of d is a shell index below n. */
  predicate Digits(d: seq<int>, n: nat) {
    forall t :: 0 <= t < |d| ==> 0 <= d[t] < n
  }

  /** The flat index of a tuple, most significant entry first: a number below n^m. */
  function Fold(d: seq<int>, n: nat): (r: nat)
    requires Digits(d, n)
    ensures r < Power(n, |d|)
  {
    if |d| == 0 then 0
    else
      var f := Fold(d[..|d| - 1], n);
      AppendBelow(f, d[|d| - 1], n, Power(n, |d| - 1));
      f * n + d[|d| - 1]
  }

  /** ik[ii] = i / n^ii % n: the first entry is the least significant digit. */
  function LsbDigits(x: nat, n: nat, m: nat): (r: seq<int>)
    requires n > 0
    ensures |r| == m && Digits(r, n)
  {
    seq(m, ii requires 0 <= ii => x / Power(n, ii) % n)
  }

  function Reverse(s: seq<int>): (r: seq<int>)
    ensures |r| == |s|
  {
    seq(|s|, t requires 0 <= t < |s| => s[|s| - 1 - t])
  }

  /** ik[ii] = i / n^(m-1-ii) % n: the first entry is the most significant digit. */
  function MsbDigits(x: nat, n: nat, m: nat): (r: seq<int>)
    requires n > 0
    ensures |r| == m && Digits(r, n)
    ensures forall ii :: 0 <= ii < m ==> r[ii] == x / Power(n, m - 1 - ii) % n
  {
    Reverse(LsbDigits(x, n, m))
  }

  /** Decoding the least significant digit first drops the last digit of x into the front. */
  lemma LsbStep(x: nat, n: nat, m: nat)
    requires n > 0 && m > 0
    ensures LsbDigits(x, n, m) == [x % n] + LsbDigits(x / n, n, m - 1)
  {
    var a, b := LsbDigits(x, n, m), [x % n] + LsbDigits(x / n, n, m - 1);
    forall ii | 1 <= ii < m
      ensures a[ii] == b[ii]
    {
      NestedDiv(x, n, Power(n, ii - 1));
    }
  }

  /** Decoding the flat index of a tuple, least significant digit first, gives the tuple reversed. */
  lemma {:induction false} LsbOfFold(d: seq<int>, n: nat)
    requires n > 0 && Digits(d, n)
    ensures LsbDigits(Fold(d, n), n, |d|) == Reverse(d)
  {
    if |d| > 0 {
      var init, e := d[..|d| - 1], d[|d| - 1];
      var x := Fold(d, n);
      DivModUnique(Fold(init, n), e, n);
      LsbStep(x, n, |d|);
      LsbOfFold(init, n);
      assert Reverse(d) == [e] + Reverse(init);
    }
  }

  /** Decoding the flat index of a tuple, most significant digit first, gives the tuple back. */
  lemma MsbOfFold(d: seq<int>, n: nat)
    requires n > 0 && Digits(d, n)
    ensures MsbDigits(Fold(d, n), n, |d|) == d
  {
    LsbOfFold(d, n);
    assert Reverse(Reverse(d)) == d;
  }

  /** Decoding the most significant digit first puts the last digit of x at the end. */
  lemma MsbStep(x: nat, n: nat, m: nat)
    requires n > 0 && m > 0
    ensures MsbDigits(x, n, m) == MsbDigits(x / n, n, m - 1) + [x % n]
  {
    LsbStep(x, n, m);
    var l := LsbDigits(x / n, n, m - 1);
    assert Reverse([x % n] + l) == Reverse(l) + [x % n];
  }

  /** Every flat index below n^m is the index of the tuple its digits form. */
  lemma {:induction false} FoldOfMsb(x: nat, n: nat, m: nat)
    requires n > 0 && x < Power(n, m)
    ensures Fold(MsbDigits(x, n, m), n) == x
    decreases m
  {
    if m > 0 {
      var q, r := x / n, x % n;
      var d, e := MsbDigits(x, n, m), MsbDigits(q, n, m - 1);
      QuotientBelow(x, n, m);
      FoldOfMsb(q, n, m - 1);
      MsbStep(x, n, m);
      assert d[..m - 1] == e;
      assert Fold(d, n) == q * n + r;
      DivModIdentity(x, n);
    }
  }

  /** Distinct tuples of the same length have distinct flat indices. */
  lemma FoldInjective(d: seq<int>, e: seq<int>, n: nat)
    requires n > 0 && Digits(d, n) && Digits(e, n) && |d| == |e|
    ensures Fold(d, n) == Fold(e, n) ==> d == e
  {
    MsbOfFold(d, n);
    MsbOfFold(e, n);
  }

  /** The decode loop with ik[0] least significant: for (ii = 0, p = 1; ii < m; ii++, p *= n) ik[ii] = x / p % n. */
  method DecodeLsb(x: nat, n: nat, m: nat) returns (ik: seq<int>)
    requires n > 0
    ensures ik == LsbDigits(x, n, m)
  {
    ik := [];
    var ii, p := 0, 1;
    while ii < m
      invariant 0 <= ii <= m && p == Power(n, ii) && ik == LsbDigits(x, n, ii)
    {
      ik := ik + [x / p % n];
      ii, p := ii + 1, p * n;
    }
  }

  /** The decode loop with ik[0] most significant: for (ii = m - 1, p = 1; ii >= 0; ii--, p *= n) ik[ii] = x / p % n. */
  method DecodeMsb(x: nat, n: nat, m: nat) returns (ik: seq<int>)
    requires n > 0
    ensures ik == MsbDigits(x, n, m)
  {
    ik := seq(m, _ => 0);
    var ii, p := m - 1, 1;
    while ii >= 0
      invariant -1 <= ii < m && |ik| == m && p == Power(n, m - 1 - ii)
      invariant forall t :: ii < t < m ==> ik[t] == x / Power(n, m - 1 - t) % n
    {
      ik := ik[ii := x / p % n];
      ii, p := ii - 1, p * n;
    }
  }

  /** The index loop of the completion pass: index = index * n + ik[ii] over the tuple. */
  method FoldIndex(ik: seq<int>, n: nat) returns (index: nat)
    requires Digits(ik, n)
    ensures index == Fold(ik, n)
  {
    index := 0;
    var ii := 0;
    while ii < |ik|
      invariant 0 <= ii <= |ik| && index == Fold(ik[..ii], n)
    {
      ghost var prefix := ik[..ii + 1];
      assert prefix[..ii] == ik[..ii] && prefix[ii] == ik[ii];
      assert Fold(prefix, n) == Fold(ik[..ii], n) * n + ik[ii];
      index := index * n + ik[ii];
      ii := ii + 1;
    }
    assert ik[..ii] == ik;
  }

  //------------------------------------------------------------------
  // Sorting
  //------------------------------------------------------------------

  predicate Sorted(s: seq<int>) {
    forall i, j :: 0 <= i < j < |s| ==> s[i] <= s[j]
  }

  /** Each entry is at most the one before it, as the estimators test it. */
  predicate NonIncreasing(s: seq<int>) {
    forall ii :: 1 <= ii < |s| ==> s[ii] <= s[ii - 1]
  }

  function Insert(x: int, s: seq<int>): (r: seq<int>)
    requires Sorted(s)
    ensures Sorted(r) && multiset(r) == multiset(s) + multiset{x} && |r| == |s| + 1
    ensures r[0] == x || (|s| > 0 && r[0] == s[0])
  {
    if |s| == 0 || x <= s[0] then [x] + s
    else
      assert s == [s[0]] + s[1..];
      var rest := Insert(x, s[1..]);
      assert s[0] <= rest[0];
      assert forall j :: 0 <= j < |rest| ==> s[0] <= rest[j];
      [s[0]] + rest
  }

  /** std::sort with std::less: the entries in increasing order. */
  function SortAscending(s: seq<int>): (r: seq<int>)
    ensures Sorted(r) && multiset(r) == multiset(s) && |r| == |s|
  {
    if |s| == 0 then []
    else
      assert s == [s[0]] + s[1..];
      Insert(s[0], SortAscending(s[1..]))
  }

  /** Sorting keeps a tuple of shell indices a tuple of shell indices. */
  lemma SortDigits(s: seq<int>, n: nat)
    requires Digits(s, n)
    ensures Digits(SortAscending(s), n)
  {
    var r := SortAscending(s);
    forall x | 0 <= x < |r|
      ensures 0 <= r[x] < n
    {
      assert r[x] in multiset(s);
    }
  }

  /** A sorted arrangement of a multiset is unique. */
  lemma {:induction false} SortedUnique(a: seq<int>, b: seq<int>)
    requires Sorted(a) && Sorted(b) && multiset(a) == multiset(b)
    ensures a == b
  {
    assert |a| == |multiset(a)| == |b|;
    if |a| > 0 {
      assert a[0] == b[0] by {
        SortedHeadIsLeast(b, a[0]);
        SortedHeadIsLeast(a, b[0]);
      }
      assert multiset(a[1..]) == multiset(b[1..]) by {
        Unsnoc(a);
        Unsnoc(b);
      }
      SortedUnique(a[1..], b[1..]);
    }
  }

  lemma SortedHeadIsLeast(s: seq<int>, x: int)
    requires Sorted(s) && x in multiset(s)
    ensures s[0] <= x
  {
    assert x in s;
  }

  lemma Unsnoc(s: seq<int>)
    requires |s| > 0
    ensures multiset(s[1..]) == multiset(s) - multiset{s[0]}
  {
    assert s == [s[0]] + s[1..];
  }

  lemma {:induction false} ReverseMultiset(s: seq<int>)
    ensures multiset(Reverse(s)) == multiset(s)
  {
    if |s| > 0 {
      ReverseMultiset(s[1..]);
      assert Reverse(s) == Reverse(s[1..]) + [s[0]];
      assert s == [s[0]] + s[1..];
    }
  }

  /** A tuple whose entries never increase sorts to its reverse. */
  lemma SortNonIncreasing(s: seq<int>)
    requires NonIncreasing(s)
    ensures SortAscending(s) == Reverse(s)
  {
    assert Sorted(Reverse(s)) by {
      forall i, j | 0 <= i < j < |s|
        ensures Reverse(s)[i] <= Reverse(s)[j]
      {
        AdjacentOrder(s, |s| - 1 - j, |s| - 1 - i);
      }
    }
    ReverseMultiset(s);
    SortedUnique(SortAscending(s), Reverse(s));
  }

  lemma {:induction false} AdjacentOrder(s: seq<int>, i: nat, j: nat)
    requires NonIncreasing(s) && i <= j < |s|
    ensures s[j] <= s[i]
    decreases j - i
  {
    if i < j {
      AdjacentOrder(s, i, j - 1);
    }
  }
}
