/** Lexicographic order on sequences, and the identifier order the runtime sorts by.

    Python compares strings by code point and tuples element by element; both are
    instances of one lexicographic order, so its laws are proved once. */
module Order {

  /** a sorts strictly before b: at the first difference a is smaller, or a is a proper prefix. */
  predicate LexLess<T(==)>(less: (T, T) -> bool, a: seq<T>, b: seq<T>)
  {
    if b == [] then false
    else if a == [] then true
    else if a[0] == b[0] then LexLess(less, a[1..], b[1..])
    else less(a[0], b[0])
  }

  /** The same order stated through the position of the first difference. */
  ghost predicate FirstDifference<T>(less: (T, T) -> bool, a: seq<T>, b: seq<T>, k: nat)
  {
    && k <= |a| && k < |b|
    && a[..k] == b[..k]
    && (k == |a| || (a[k] != b[k] && less(a[k], b[k])))
  }

  lemma {:induction false} LexLessIffFirstDifference<T>(less: (T, T) -> bool, a: seq<T>, b: seq<T>)
    ensures LexLess(less, a, b) <==> exists k: nat :: FirstDifference(less, a, b, k)
  {
    if a != [] && b != [] && a[0] == b[0] {
      LexLessIffFirstDifference(less, a[1..], b[1..]);
      if LexLess(less, a, b) {
        var k: nat :| FirstDifference(less, a[1..], b[1..], k);
        assert a[..k + 1] == [a[0]] + a[1..][..k];
        assert b[..k + 1] == [b[0]] + b[1..][..k];
        assert FirstDifference(less, a, b, k + 1);
      }
      if k: nat :| FirstDifference(less, a, b, k) {
        assert k > 0;
        assert a[1..][..k - 1] == a[..k][1..] == b[..k][1..] == b[1..][..k - 1];
        assert FirstDifference(less, a[1..], b[1..], k - 1);
      }
    } else if b != [] {
      if LexLess(less, a, b) {
        assert FirstDifference(less, a, b, 0);
      }
      if k: nat :| FirstDifference(less, a, b, k) {
        if k > 0 {
          assert a[..k][0] == b[..k][0];
        }
      }
    }
  }

  lemma {:induction false} LexIrreflexive<T>(less: (T, T) -> bool, a: seq<T>)
    ensures !LexLess(less, a, a)
  {
    if a != [] {
      LexIrreflexive(less, a[1..]);
    }
  }

  lemma {:induction false} LexTransitive<T>(less: (T, T) -> bool, a: seq<T>, b: seq<T>, c: seq<T>)
    requires forall x, y, z :: x in a && y in b && z in c && less(x, y) && less(y, z) ==> less(x, z) && x != z
    requires LexLess(less, a, b) && LexLess(less, b, c)
    ensures LexLess(less, a, c)
  {
    if a != [] {
      assert a[0] in a && b[0] in b && c[0] in c;
      if a[0] == b[0] && b[0] == c[0] {
        LexTransitive(less, a[1..], b[1..], c[1..]);
      }
    }
  }

  lemma {:induction false} LexTotal<T>(less: (T, T) -> bool, a: seq<T>, b: seq<T>)
    requires forall x, y :: x in a && y in b ==> x == y || less(x, y) || less(y, x)
    ensures a == b || LexLess(less, a, b) || LexLess(less, b, a)
  {
    if a != [] && b != [] {
      assert a[0] in a && b[0] in b;
      if a[0] == b[0] {
        LexTotal(less, a[1..], b[1..]);
        assert a == [a[0]] + a[1..] && b == [b[0]] + b[1..];
      }
    }
  }

  predicate CharLess(a: char, b: char) { a < b }

  /** The order of two identifier values. */
  predicate StrLess(a: string, b: string) { LexLess(CharLess, a, b) }

  lemma StrIrreflexive(a: string)
    ensures !StrLess(a, a)
  {
    LexIrreflexive(CharLess, a);
  }

  lemma StrTransitive(a: string, b: string, c: string)
    requires StrLess(a, b) && StrLess(b, c)
    ensures StrLess(a, c)
  {
    LexTransitive(CharLess, a, b, c);
  }

  lemma StrTotal(a: string, b: string)
    ensures a == b || StrLess(a, b) || StrLess(b, a)
  {
    LexTotal(CharLess, a, b);
  }

  lemma StrAsymmetric(a: string, b: string)
    requires StrLess(a, b)
    ensures !StrLess(b, a)
  {
    if StrLess(b, a) {
      StrTransitive(a, b, a);
      StrIrreflexive(a);
    }
  }

  // ---------------------------------------------------------------- ranks

  /** The position of x among the identifiers in s. */
  function Rank(s: set<string>, x: string): nat { |set y | y in s && StrLess(y, x)| }

  lemma {:induction false} ProperSubsetCard<T>(a: set<T>, b: set<T>, x: T)
    requires a <= b && x in b && x !in a
    ensures |a| < |b|
  {
    assert b == a + (b - a);
    assert x in b - a;
  }

  /** Any finite set of identifiers is ordered like its ranks. The ordering code reads
      identifiers only through equality and this order, so integers stand in for them. */
  lemma RankEmbedsIdentifiers(s: set<string>, a: string, b: string)
    requires a in s && b in s
    ensures a == b <==> Rank(s, a) == Rank(s, b)
    ensures StrLess(a, b) <==> Rank(s, a) < Rank(s, b)
  {
    StrTotal(a, b);
    StrIrreflexive(a);
    if StrLess(a, b) { RankStrict(s, a, b); StrAsymmetric(a, b); }
    if StrLess(b, a) { RankStrict(s, b, a); StrAsymmetric(b, a); }
  }

  lemma RankStrict(s: set<string>, a: string, b: string)
    requires a in s && StrLess(a, b)
    ensures Rank(s, a) < Rank(s, b)
  {
    var below, above := set y | y in s && StrLess(y, a), set y | y in s && StrLess(y, b);
    forall y | y in below ensures y in above { StrTransitive(y, a, b); }
    StrIrreflexive(a);
    ProperSubsetCard(below, above, a);
  }

  // ---------------------------------------------------------------- sorting

  ghost predicate StrictOrder<T(!new)>(less: (T, T) -> bool)
  {
    && (forall x :: !less(x, x))
    && (forall x, y, z :: less(x, y) && less(y, z) ==> less(x, z))
  }

  /** Any two entries are ordered; so no entry repeats. */
  ghost predicate Comparable<T>(less: (T, T) -> bool, xs: seq<T>)
  {
    forall i, j :: 0 <= i < j < |xs| ==> less(xs[i], xs[j]) || less(xs[j], xs[i])
  }

  predicate IntLess(a: nat, b: nat) { a < b }

  /** Composite sort keys: tuples compared element by element. */
  predicate TupleLess(a: seq<nat>, b: seq<nat>) { LexLess(IntLess, a, b) }

  lemma TupleOrder()
    ensures StrictOrder(TupleLess)
    ensures forall x, y :: x == y || TupleLess(x, y) || TupleLess(y, x)
  {
    forall x ensures !TupleLess(x, x) { LexIrreflexive(IntLess, x); }
    forall x, y, z | TupleLess(x, y) && TupleLess(y, z) ensures TupleLess(x, z) { LexTransitive(IntLess, x, y, z); }
    forall x, y ensures x == y || TupleLess(x, y) || TupleLess(y, x) { LexTotal(IntLess, x, y); }
  }

  ghost predicate Ascending<T>(less: (T, T) -> bool, xs: seq<T>)
  {
    forall i, j :: 0 <= i < j < |xs| ==> less(xs[i], xs[j])
  }

  ghost predicate Distinct<T>(xs: seq<T>)
  {
    forall i, j :: 0 <= i < j < |xs| ==> xs[i] != xs[j]
  }

  function Elements<T>(xs: seq<T>): set<T> { set x | x in xs }

  /** Insertion into an ascending list. */
  function Insert<T>(less: (T, T) -> bool, x: T, xs: seq<T>): (r: seq<T>)
    ensures multiset(r) == multiset(xs) + multiset{x}
    ensures |r| == |xs| + 1
  {
    if xs == [] then [x]
    else if less(x, xs[0]) then [x] + xs
    else
      assert xs == [xs[0]] + xs[1..];
      [xs[0]] + Insert(less, x, xs[1..])
  }

  /** Python's sorted(xs). */
  function SortBy<T>(less: (T, T) -> bool, xs: seq<T>): (r: seq<T>)
    ensures multiset(r) == multiset(xs)
    ensures |r| == |xs|
  {
    if xs == [] then []
    else
      assert xs == [xs[0]] + xs[1..];
      Insert(less, xs[0], SortBy(less, xs[1..]))
  }

  lemma MultisetMember<T>(a: seq<T>, b: seq<T>, x: T)
    requires multiset(a) == multiset(b)
    ensures x in a <==> x in b
  {
    assert x in a <==> x in multiset(a);
    assert x in b <==> x in multiset(b);
  }

  lemma {:induction false} InsertKeepsAscending<T(!new)>(less: (T, T) -> bool, x: T, xs: seq<T>)
    requires StrictOrder(less) && Ascending(less, xs)
    requires forall y :: y in xs ==> less(x, y) || less(y, x)
    ensures Ascending(less, Insert(less, x, xs))
  {
    if xs != [] && !less(x, xs[0]) {
      InsertKeepsAscending(less, x, xs[1..]);
      var rest := Insert(less, x, xs[1..]);
      forall j | 0 <= j < |rest| ensures less(xs[0], rest[j]) {
        var y := rest[j];
        assert multiset(xs[1..] + [x]) == multiset(xs[1..]) + multiset{x};
        MultisetMember(rest, xs[1..] + [x], y);
        if y != x {
          var k :| 0 <= k < |xs[1..]| && xs[1..][k] == y;
          assert xs[k + 1] == y;
        }
      }
    }
  }

  /** Sorting a repetition-free list orders it strictly and keeps its elements. */
  lemma {:induction false} SortIsAscending<T(!new)>(less: (T, T) -> bool, xs: seq<T>)
    requires StrictOrder(less) && Comparable(less, xs)
    ensures Ascending(less, SortBy(less, xs))
    ensures Elements(SortBy(less, xs)) == Elements(xs)
  {
    var sorted := SortBy(less, xs);
    forall x ensures x in sorted <==> x in xs { MultisetMember(sorted, xs, x); }
    if xs != [] {
      SortIsAscending(less, xs[1..]);
      var rest := SortBy(less, xs[1..]);
      forall y | y in rest ensures less(xs[0], y) || less(y, xs[0]) {
        MultisetMember(rest, xs[1..], y);
        var k :| 0 <= k < |xs[1..]| && xs[1..][k] == y;
        assert xs[k + 1] == y;
      }
      InsertKeepsAscending(less, xs[0], rest);
    }
  }

  lemma SortNats(xs: seq<nat>)
    requires Distinct(xs)
    ensures Ascending(IntLess, SortBy(IntLess, xs))
    ensures Elements(SortBy(IntLess, xs)) == Elements(xs)
  {
    SortIsAscending(IntLess, xs);
  }

  /** Sorting an ascending list changes nothing. */
  lemma SortAscending<T(!new)>(less: (T, T) -> bool, xs: seq<T>)
    requires StrictOrder(less) && Ascending(less, xs)
    ensures SortBy(less, xs) == xs
  {
    SortIsAscending(less, xs);
    AscendingUnique(less, SortBy(less, xs), xs);
  }

  lemma AscendingDistinct<T(!new)>(less: (T, T) -> bool, xs: seq<T>)
    requires StrictOrder(less) && Ascending(less, xs)
    ensures Distinct(xs)
  {
  }

  lemma TailElements<T(!new)>(less: (T, T) -> bool, xs: seq<T>)
    requires StrictOrder(less) && xs != [] && Ascending(less, xs)
    ensures Ascending(less, xs[1..]) && Elements(xs[1..]) == Elements(xs) - {xs[0]}
  {
    forall x ensures x in xs[1..] <==> x in xs && x != xs[0] {
      if x in xs[1..] {
        var k :| 0 <= k < |xs[1..]| && xs[1..][k] == x;
        assert xs[k + 1] == x;
      }
      if x in xs && x != xs[0] {
        var k :| 0 <= k < |xs| && xs[k] == x;
        assert xs[1..][k - 1] == x;
      }
    }
  }

  /** An ascending list is determined by its elements. */
  lemma {:induction false} AscendingUnique<T(!new)>(less: (T, T) -> bool, a: seq<T>, b: seq<T>)
    requires StrictOrder(less) && Ascending(less, a) && Ascending(less, b)
    requires Elements(a) == Elements(b)
    ensures a == b
  {
    if a != [] && b != [] {
      assert a[0] in Elements(b) && b[0] in Elements(a);
      TailElements(less, a);
      TailElements(less, b);
      AscendingUnique(less, a[1..], b[1..]);
      assert a == [a[0]] + a[1..] && b == [b[0]] + b[1..];
    } else {
      DistinctCard(a);
      DistinctCard(b);
    }
  }

  /** Sorting forgets the input order. */
  lemma SortPermutation<T(!new)>(less: (T, T) -> bool, a: seq<T>, b: seq<T>)
    requires StrictOrder(less) && Comparable(less, a) && Comparable(less, b)
    requires Elements(a) == Elements(b)
    ensures SortBy(less, a) == SortBy(less, b)
  {
    SortIsAscending(less, a);
    SortIsAscending(less, b);
    AscendingUnique(less, SortBy(less, a), SortBy(less, b));
  }

  lemma {:induction false} DistinctCard<T>(xs: seq<T>)
    requires Distinct(xs)
    ensures |Elements(xs)| == |xs|
  {
    if xs != [] {
      DistinctCard(xs[1..]);
      assert xs[0] !in Elements(xs[1..]);
      assert Elements(xs) == Elements(xs[1..]) + {xs[0]};
    }
  }
}
