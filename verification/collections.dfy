/** The array operations every screen is built from: `filter`, counting with
    `filter(...).length`, `reduce` sums, `map` replacement by id, and
    `[...new Set(xs)]`. Each is defined once here, generically, with the
    facts the screens rely on proved once. */
module Collections {

  /* ---------------------------------------------------------------------- */
  /* Subsequences                                                           */
  /* ---------------------------------------------------------------------- */

  /** `a` is obtained from `b` by deleting elements: same relative order, no
      element invented. */
  ghost predicate IsSubsequence<T>(a: seq<T>, b: seq<T>)
    decreases |b|
  {
    || |a| == 0
    || (&& |b| > 0
        && (|| (a[0] == b[0] && IsSubsequence(a[1..], b[1..]))
            || IsSubsequence(a, b[1..])))
  }

  lemma {:induction false} SubsequenceMembers<T>(a: seq<T>, b: seq<T>)
    requires IsSubsequence(a, b)
    ensures forall x :: x in a ==> x in b
    ensures |a| <= |b|
    decreases |b|
  {
    if |a| == 0 {
    } else if a[0] == b[0] && IsSubsequence(a[1..], b[1..]) {
      SubsequenceMembers(a[1..], b[1..]);
      assert forall x :: x in a ==> x == a[0] || x in a[1..];
    } else {
      SubsequenceMembers(a, b[1..]);
    }
  }

  lemma {:induction false} SubsequenceRefl<T>(a: seq<T>)
    ensures IsSubsequence(a, a)
    decreases |a|
  {
    if |a| > 0 {
      SubsequenceRefl(a[1..]);
    }
  }

  lemma {:induction false} SubsequenceTrans<T>(a: seq<T>, b: seq<T>, c: seq<T>)
    requires IsSubsequence(a, b) && IsSubsequence(b, c)
    ensures IsSubsequence(a, c)
    decreases |c|
  {
    if |a| == 0 {
    } else if |b| == 0 {
    } else if b[0] == c[0] && IsSubsequence(b[1..], c[1..]) {
      if a[0] == b[0] && IsSubsequence(a[1..], b[1..]) {
        SubsequenceTrans(a[1..], b[1..], c[1..]);
      } else {
        SubsequenceTrans(a, b[1..], c[1..]);
      }
    } else {
      SubsequenceTrans(a, b, c[1..]);
    }
  }

  /* ---------------------------------------------------------------------- */
  /* filter                                                                  */
  /* ---------------------------------------------------------------------- */

  /** `s.filter(p)`. */
  function Filter<T(!new)>(p: T -> bool, s: seq<T>): (r: seq<T>)
    ensures |r| <= |s|
    ensures forall x :: x in r <==> x in s && p(x)
    ensures IsSubsequence(r, s)
  {
    if |s| == 0 then []
    else
      var rest := Filter(p, s[1..]);
      assert forall x :: x in s <==> x == s[0] || x in s[1..];
      if p(s[0]) then
        assert ([s[0]] + rest)[1..] == rest;
        [s[0]] + rest
      else
        rest
  }

  /** Filtering keeps every element when every element passes. */
  lemma {:induction false} FilterKeepsAll<T(!new)>(p: T -> bool, s: seq<T>)
    requires forall x :: x in s ==> p(x)
    ensures Filter(p, s) == s
    decreases |s|
  {
    if |s| > 0 {
      FilterKeepsAll(p, s[1..]);
    }
  }

  /** Filtering twice is filtering once on the conjunction: staged filters
      neither reorder nor interact. `pq` is any predicate that is the
      conjunction of `p` and `q` on the elements of `s`. */
  lemma {:induction false} FilterFusion<T(!new)>(p: T -> bool, q: T -> bool, pq: T -> bool, s: seq<T>)
    requires forall x :: x in s ==> pq(x) == (p(x) && q(x))
    ensures Filter(q, Filter(p, s)) == Filter(pq, s)
    decreases |s|
  {
    if |s| > 0 {
      FilterFusion(p, q, pq, s[1..]);
    }
  }

  /** A filter applied only when `cond` holds (`if (cond) filtered =
      filtered.filter(p)`) is the filter of `!cond || p`. */
  lemma FilterWhen<T(!new)>(cond: bool, p: T -> bool, pc: T -> bool, s: seq<T>)
    requires forall x :: x in s ==> pc(x) == (!cond || p(x))
    ensures (if cond then Filter(p, s) else s) == Filter(pc, s)
  {
    if cond {
      FilterCongruent(p, pc, s);
    } else {
      FilterKeepsAll(pc, s);
    }
  }

  /** Two filters whose predicates agree on the elements select the same
      elements. */
  lemma {:induction false} FilterCongruent<T(!new)>(p: T -> bool, q: T -> bool, s: seq<T>)
    requires forall x :: x in s ==> p(x) == q(x)
    ensures Filter(p, s) == Filter(q, s)
    decreases |s|
  {
    if |s| > 0 {
      FilterCongruent(p, q, s[1..]);
    }
  }

  /** Filtering distributes over concatenation, so appending an element and
      then filtering filters the old list and the new element apart. */
  lemma {:induction false} FilterAppend<T(!new)>(p: T -> bool, s: seq<T>, t: seq<T>)
    ensures Filter(p, s + t) == Filter(p, s) + Filter(p, t)
    decreases |s|
  {
    if |s| == 0 {
      assert s + t == t;
    } else {
      assert (s + t)[1..] == s[1..] + t;
      FilterAppend(p, s[1..], t);
    }
  }

  /* ---------------------------------------------------------------------- */
  /* Counting                                                                */
  /* ---------------------------------------------------------------------- */

  /** `s.filter(p).length`, computed without building the list. */
  function Count<T>(p: T -> bool, s: seq<T>): (n: nat)
    ensures n <= |s|
  {
    if |s| == 0 then 0
    else (if p(s[0]) then 1 else 0) + Count(p, s[1..])
  }

  lemma {:induction false} CountIsFilterLength<T(!new)>(p: T -> bool, s: seq<T>)
    ensures Count(p, s) == |Filter(p, s)|
    decreases |s|
  {
    if |s| > 0 {
      CountIsFilterLength(p, s[1..]);
    }
  }

  /** Every element is counted on exactly one side of a predicate: `np` is
      the negation of `p` on the elements of `s`. */
  lemma {:induction false} CountPartition<T>(p: T -> bool, np: T -> bool, s: seq<T>)
    requires forall x :: x in s ==> np(x) == !p(x)
    ensures Count(p, s) + Count(np, s) == |s|
    decreases |s|
  {
    if |s| > 0 {
      CountPartition(p, np, s[1..]);
    }
  }

  /** A predicate every element passes counts the whole list. */
  lemma {:induction false} CountAll<T>(p: T -> bool, s: seq<T>)
    requires forall x :: x in s ==> p(x)
    ensures Count(p, s) == |s|
    decreases |s|
  {
    if |s| > 0 {
      CountAll(p, s[1..]);
    }
  }

  /** A stronger predicate counts no more elements. */
  lemma {:induction false} CountMonotone<T>(p: T -> bool, q: T -> bool, s: seq<T>)
    requires forall x :: x in s && p(x) ==> q(x)
    ensures Count(p, s) <= Count(q, s)
    decreases |s|
  {
    if |s| > 0 {
      CountMonotone(p, q, s[1..]);
    }
  }

  /** Predicates that never hold together count, between them, the
      elements their disjunction `pq` counts. */
  lemma {:induction false} CountDisjoint<T>(p: T -> bool, q: T -> bool, pq: T -> bool, s: seq<T>)
    requires forall x :: x in s ==> !(p(x) && q(x)) && pq(x) == (p(x) || q(x))
    ensures Count(p, s) + Count(q, s) == Count(pq, s)
    decreases |s|
  {
    if |s| > 0 {
      CountDisjoint(p, q, pq, s[1..]);
    }
  }

  /* ---------------------------------------------------------------------- */
  /* Sums and means (`reduce((sum, x) => sum + f(x), 0)`)                    */
  /* ---------------------------------------------------------------------- */

  function Sum<T>(f: T -> real, s: seq<T>): real {
    if |s| == 0 then 0.0 else f(s[0]) + Sum(f, s[1..])
  }

  lemma {:induction false} SumAppend<T>(f: T -> real, s: seq<T>, t: seq<T>)
    ensures Sum(f, s + t) == Sum(f, s) + Sum(f, t)
    decreases |s|
  {
    if |s| == 0 {
      assert s + t == t;
    } else {
      assert (s + t)[1..] == s[1..] + t;
      SumAppend(f, s[1..], t);
    }
  }

  /** Bounding every term bounds the sum. */
  lemma {:induction false} SumBounds<T>(f: T -> real, s: seq<T>, lo: real, hi: real)
    requires forall x :: x in s ==> lo <= f(x) <= hi
    ensures lo * |s| as real <= Sum(f, s) <= hi * |s| as real
    decreases |s|
  {
    if |s| > 0 {
      SumBounds(f, s[1..], lo, hi);
      assert lo * |s| as real == lo + lo * |s[1..]| as real;
      assert hi * |s| as real == hi + hi * |s[1..]| as real;
    }
  }

  /** A sum of terms none of which is negative is not negative. */
  lemma {:induction false} SumNonNegative<T>(f: T -> real, s: seq<T>)
    requires forall x :: x in s ==> f(x) >= 0.0
    ensures Sum(f, s) >= 0.0
    decreases |s|
  {
    if |s| > 0 {
      assert s[0] in s;
      assert forall x :: x in s[1..] ==> x in s;
      SumNonNegative(f, s[1..]);
    }
  }

  /** The mean of `f` over `s`, and 0 for an empty list instead of a
      division by zero. */
  function Mean<T>(f: T -> real, s: seq<T>): (m: real)
    ensures |s| == 0 ==> m == 0.0
    ensures |s| > 0 ==> m * |s| as real == Sum(f, s)
  {
    if |s| == 0 then 0.0 else Sum(f, s) / |s| as real
  }

  /** A mean lies between the smallest and the largest possible term. */
  lemma MeanBounds<T>(f: T -> real, s: seq<T>, lo: real, hi: real)
    requires |s| > 0
    requires forall x :: x in s ==> lo <= f(x) <= hi
    ensures lo <= Mean(f, s) <= hi
  {
    SumBounds(f, s, lo, hi);
    var n := |s| as real;
    var m := Mean(f, s);
    assert m * n == Sum(f, s);
    assert m < lo ==> m * n < lo * n;
    assert m > hi ==> m * n > hi * n;
  }

  /** `Math.round(x)`: the nearest integer, halves rounded up. */
  function Round(x: real): (r: int)
    ensures r as real - 0.5 <= x < r as real + 0.5
  {
    (x + 0.5).Floor
  }

  /** Rounding an integer gives it back. */
  lemma RoundInteger(n: int)
    ensures Round(n as real) == n
  {
  }

  /* ---------------------------------------------------------------------- */
  /* Replacement by key (`s.map(x => hit(x) ? y : x)`)                       */
  /* ---------------------------------------------------------------------- */

  /** Replaces every element selected by `hit` with `y`. */
  function ReplaceWhere<T>(hit: T -> bool, y: T, s: seq<T>): (r: seq<T>)
    ensures |r| == |s|
    ensures forall i :: 0 <= i < |s| && hit(s[i]) ==> r[i] == y
    ensures forall i :: 0 <= i < |s| && !hit(s[i]) ==> r[i] == s[i]
  {
    if |s| == 0 then []
    else [if hit(s[0]) then y else s[0]] + ReplaceWhere(hit, y, s[1..])
  }

  /** Replacing where nothing is selected changes nothing. */
  lemma ReplaceNothing<T>(hit: T -> bool, y: T, s: seq<T>)
    requires forall x :: x in s ==> !hit(x)
    ensures ReplaceWhere(hit, y, s) == s
  {
    var r := ReplaceWhere(hit, y, s);
    assert forall i :: 0 <= i < |s| ==> r[i] == s[i];
  }

  /* ---------------------------------------------------------------------- */
  /* Projection (`s.map(f)`)                                                 */
  /* ---------------------------------------------------------------------- */

  /** `s.map(f)`. */
  function Project<T, U>(f: T -> U, s: seq<T>): (r: seq<U>)
    ensures |r| == |s|
    ensures forall i :: 0 <= i < |s| ==> r[i] == f(s[i])
  {
    if |s| == 0 then [] else [f(s[0])] + Project(f, s[1..])
  }

  /** The values of a projection are exactly the images of the elements. */
  lemma ProjectMembers<T, U>(f: T -> U, s: seq<T>)
    ensures forall y :: y in Project(f, s) <==> exists x :: x in s && f(x) == y
  {
    var r := Project(f, s);
    forall y | y in r ensures exists x :: x in s && f(x) == y {
      var i :| 0 <= i < |r| && r[i] == y;
      assert s[i] in s;
    }
    forall y, x | x in s && f(x) == y ensures y in r {
      var i :| 0 <= i < |s| && s[i] == x;
      assert r[i] == y;
    }
  }

  /* ---------------------------------------------------------------------- */
  /* Distinct values (`[...new Set(s)]`)                                     */
  /* ---------------------------------------------------------------------- */

  predicate NoDuplicates<T(==)>(s: seq<T>) {
    forall i, j :: 0 <= i < j < |s| ==> s[i] != s[j]
  }

  /** Position of the first occurrence of `x` in `s`. */
  function FirstIndex<T(==)>(s: seq<T>, x: T): (k: nat)
    requires x in s
    ensures k < |s| && s[k] == x && x !in s[..k]
  {
    if s[0] == x then 0
    else
      var k := FirstIndex(s[1..], x);
      assert s[1..][..k] == s[1..k + 1];
      k + 1
  }

  /** An element's first occurrence does not move when the list grows at
      the end. */
  lemma FirstIndexPrefix<T>(s: seq<T>, y: T, x: T)
    requires x in s
    ensures x in s + [y] && FirstIndex(s + [y], x) == FirstIndex(s, x)
  {
    var k := FirstIndex(s, x);
    var k' := FirstIndex(s + [y], x);
    var t := s + [y];
    assert t[k] == x;
    assert forall i | 0 <= i < k :: t[i] == s[..k][i];
    assert forall i | 0 <= i < k' :: t[i] == t[..k'][i];
  }

  /** `[...new Set(s)]`: the distinct elements of `s`, each at the place of
      its first occurrence (a JavaScript `Set` iterates in insertion
      order). */
  function Distinct<T(==,!new)>(s: seq<T>): (r: seq<T>)
    ensures NoDuplicates(r)
    ensures forall x :: x in r <==> x in s
    ensures forall i, j :: 0 <= i < j < |r| ==> FirstIndex(s, r[i]) < FirstIndex(s, r[j])
    decreases |s|
  {
    if |s| == 0 then []
    else
      var init := s[..|s| - 1];
      var last := s[|s| - 1];
      var r := Distinct(init);
      assert s == init + [last];
      assert forall x :: x in s <==> x in init || x == last;
      forall x | x in r
        ensures FirstIndex(s, x) == FirstIndex(init, x)
      {
        FirstIndexPrefix(init, last, x);
      }
      if last in r then
        r
      else
        assert FirstIndex(s, last) == |s| - 1;
        r + [last]
  }
}
