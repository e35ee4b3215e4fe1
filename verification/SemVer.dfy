/** Semantic versions: hand-written precedence, ranges, printer and parser. */
module SemVer {
  import opened Wrappers
  import opened Order

  datatype Version = Version(major: nat, minor: nat, patch: nat, prerelease: seq<string>, build: seq<string>)

  // ---------------------------------------------------------------- numerals

  predicate IsDigit(c: char) { '0' <= c <= '9' }

  predicate AllDigits(s: string) { forall i :: 0 <= i < |s| ==> IsDigit(s[i]) }

  /** str.isdigit over ASCII. */
  predicate IsNumeric(s: string) { s != "" && AllDigits(s) }

  function DigitValue(c: char): nat
    requires IsDigit(c)
  {
    (c - '0') as nat
  }

  function DigitChar(d: nat): (c: char)
    requires d < 10
    ensures IsDigit(c) && DigitValue(c) == d
  {
    '0' + (d as char)
  }

  /** int(s) for a string of digits. */
  function ParseNat(s: string): nat
    requires AllDigits(s)
  {
    if s == "" then 0 else 10 * ParseNat(s[..|s| - 1]) + DigitValue(s[|s| - 1])
  }

  /** str(n). */
  function PrintNat(n: nat): (s: string)
    ensures IsNumeric(s)
    ensures |s| > 1 ==> s[0] != '0'
    ensures n > 0 ==> s[0] != '0'
  {
    if n < 10 then [DigitChar(n)] else PrintNat(n / 10) + [DigitChar(n % 10)]
  }

  /** 0 | [1-9]\d* */
  predicate IsNumeral(s: string) { IsNumeric(s) && (|s| == 1 || s[0] != '0') }

  lemma {:induction false} ParsePrintNat(n: nat)
    ensures ParseNat(PrintNat(n)) == n
  {
    if n >= 10 {
      ParsePrintNat(n / 10);
      var s := PrintNat(n);
      assert s[..|s| - 1] == PrintNat(n / 10);
    }
  }

  lemma {:induction false} PrintParseNat(s: string)
    requires IsNumeral(s)
    ensures PrintNat(ParseNat(s)) == s
    ensures s[0] != '0' ==> ParseNat(s) > 0
  {
    var init, last := s[..|s| - 1], s[|s| - 1];
    if |s| == 1 {
      assert init == "" && s == [last];
    } else {
      PrintParseNat(init);
      assert s == init + [last];
      assert ParseNat(s) / 10 == ParseNat(init) && ParseNat(s) % 10 == DigitValue(last);
    }
  }

  // ---------------------------------------------------------------- precedence

  predicate IsIdentifierChar(c: char) { IsDigit(c) || 'a' <= c <= 'z' || 'A' <= c <= 'Z' || c == '-' }

  predicate IsIdentifier(s: string) { s != "" && forall i :: 0 <= i < |s| ==> IsIdentifierChar(s[i]) }

  /** A pre-release identifier the version pattern admits: a numeral, or not all digits. */
  predicate IsPrereleaseId(s: string) { IsIdentifier(s) && (AllDigits(s) ==> IsNumeral(s)) }

  /** What the parser produces. */
  predicate Canonical(v: Version)
  {
    && (forall i :: 0 <= i < |v.prerelease| ==> IsPrereleaseId(v.prerelease[i]))
    && (forall i :: 0 <= i < |v.build| ==> IsIdentifier(v.build[i]))
  }

  /** The comparison loop over two non-empty pre-release tuples. */
  function CompareIdentifiers(left: seq<string>, right: seq<string>): int
  {
    if left == [] || right == [] then
      if |left| == |right| then 0 else if |left| < |right| then -1 else 1
    else if left[0] == right[0] then CompareIdentifiers(left[1..], right[1..])
    else if IsNumeric(left[0]) && IsNumeric(right[0]) then
      if ParseNat(left[0]) < ParseNat(right[0]) then -1 else 1
    else if IsNumeric(left[0]) != IsNumeric(right[0]) then
      if IsNumeric(left[0]) then -1 else 1
    else if StrLess(left[0], right[0]) then -1 else 1
  }

  function ComparePrerelease(left: seq<string>, right: seq<string>): int
  {
    if left == [] && right == [] then 0
    else if left == [] then 1
    else if right == [] then -1
    else CompareIdentifiers(left, right)
  }

  /** __lt__ */
  predicate Less(a: Version, b: Version)
  {
    if (a.major, a.minor, a.patch) != (b.major, b.minor, b.patch) then
      a.major < b.major || (a.major == b.major && (a.minor < b.minor || (a.minor == b.minor && a.patch < b.patch)))
    else ComparePrerelease(a.prerelease, b.prerelease) < 0
  }

  /** __eq__: build metadata is ignored. */
  predicate Same(a: Version, b: Version)
  {
    a.major == b.major && a.minor == b.minor && a.patch == b.patch && a.prerelease == b.prerelease
  }

  // ------------------------------------------- item 11 of Semantic Versioning 2.0.0

  /** Items 11.4.1 to 11.4.3: how two identifiers compare. */
  predicate IdentifierLess(a: string, b: string)
  {
    if IsNumeric(a) && IsNumeric(b) then ParseNat(a) < ParseNat(b)
    else if IsNumeric(a) != IsNumeric(b) then IsNumeric(a)
    else StrLess(a, b)
  }

  /** Item 11.4: decided at the first differing identifier, or by length when one is a prefix. */
  ghost predicate PrereleasePrecedes(a: seq<string>, b: seq<string>)
  {
    exists k: nat :: FirstDifference(IdentifierLess, a, b, k)
  }

  /** Items 11.2 to 11.4, stated over the version fields. */
  ghost predicate Precedes(a: Version, b: Version)
  {
    || a.major < b.major
    || (a.major == b.major && a.minor < b.minor)
    || (a.major == b.major && a.minor == b.minor && a.patch < b.patch)
    || (a.major == b.major && a.minor == b.minor && a.patch == b.patch &&
         ((a.prerelease != [] && b.prerelease == []) ||
          (a.prerelease != [] && b.prerelease != [] && PrereleasePrecedes(a.prerelease, b.prerelease))))
  }

  lemma {:induction false} CompareMatchesLex(left: seq<string>, right: seq<string>)
    ensures CompareIdentifiers(left, right) < 0 <==> LexLess(IdentifierLess, left, right)
    ensures CompareIdentifiers(left, right) == 0 <==> left == right
  {
    if left != [] && right != [] {
      if left[0] == right[0] {
        CompareMatchesLex(left[1..], right[1..]);
        assert left == [left[0]] + left[1..] && right == [right[0]] + right[1..];
      }
    }
  }

  /** The comparison implements item 11 on every pair of versions. */
  lemma LessIsItem11(a: Version, b: Version)
    ensures Less(a, b) <==> Precedes(a, b)
  {
    CompareMatchesLex(a.prerelease, b.prerelease);
    LexLessIffFirstDifference(IdentifierLess, a.prerelease, b.prerelease);
  }

  lemma IdentifierTotal(a: string, b: string)
    requires IsPrereleaseId(a) && IsPrereleaseId(b)
    ensures a == b || IdentifierLess(a, b) || IdentifierLess(b, a)
  {
    if IsNumeric(a) && IsNumeric(b) {
      PrintParseNat(a);
      PrintParseNat(b);
    } else {
      StrTotal(a, b);
    }
  }

  lemma IdentifierTransitive(a: string, b: string, c: string)
    requires IdentifierLess(a, b) && IdentifierLess(b, c)
    ensures IdentifierLess(a, c) && a != c
  {
    if !IsNumeric(a) && !IsNumeric(b) && !IsNumeric(c) {
      StrTransitive(a, b, c);
      StrIrreflexive(a);
    }
  }

  /** Precedence is irreflexive, also between versions that differ only in build metadata. */
  lemma LessIrreflexive(a: Version, b: Version)
    requires Same(a, b)
    ensures !Less(a, b)
  {
    CompareMatchesLex(a.prerelease, b.prerelease);
  }

  lemma LessTransitive(a: Version, b: Version, c: Version)
    requires Less(a, b) && Less(b, c)
    ensures Less(a, c)
  {
    CompareMatchesLex(a.prerelease, b.prerelease);
    CompareMatchesLex(b.prerelease, c.prerelease);
    CompareMatchesLex(a.prerelease, c.prerelease);
    if LexLess(IdentifierLess, a.prerelease, b.prerelease) && LexLess(IdentifierLess, b.prerelease, c.prerelease) {
      forall x, y, z | x in a.prerelease && y in b.prerelease && z in c.prerelease && IdentifierLess(x, y) && IdentifierLess(y, z)
        ensures IdentifierLess(x, z) && x != z
      {
        IdentifierTransitive(x, y, z);
      }
      LexTransitive(IdentifierLess, a.prerelease, b.prerelease, c.prerelease);
    }
  }

  /** On canonical versions exactly one of <, = and > holds. */
  lemma LessTotal(a: Version, b: Version)
    requires Canonical(a) && Canonical(b)
    ensures Same(a, b) || Less(a, b) || Less(b, a)
    ensures !(Less(a, b) && Less(b, a))
  {
    forall x, y | x in a.prerelease && y in b.prerelease ensures x == y || IdentifierLess(x, y) || IdentifierLess(y, x) {
      IdentifierTotal(x, y);
    }
    LexTotal(IdentifierLess, a.prerelease, b.prerelease);
    CompareMatchesLex(a.prerelease, b.prerelease);
    CompareMatchesLex(b.prerelease, a.prerelease);
    if Less(a, b) && Less(b, a) {
      LessTransitive(a, b, a);
      LessIrreflexive(a, a);
    }
  }

  /** Outside the parser's image the order is not total: 1 and 01 are neither equal nor ordered
      in item 11, and the comparison calls each of them the greater. */
  lemma LeadingZeroBreaksTotality()
    ensures var a, b := Version(1, 0, 0, ["1"], []), Version(1, 0, 0, ["01"], []);
            !Same(a, b) && !Less(a, b) && !Less(b, a)
  {
    assert ParseNat("1") == 1 by { assert "1"[..0] == ""; }
    assert ParseNat("01") == 1 by { assert "01"[..1] == "0"; assert "0"[..0] == ""; }
    assert "1"[0] == '1' && "01"[0] == '0';
  }

  /** The first differing identifiers are two spellings of one number. */
  ghost predicate NumericTie(a: seq<string>, b: seq<string>, k: nat)
  {
    && k < |a| && k < |b| && a[..k] == b[..k] && a[k] != b[k]
    && IsNumeric(a[k]) && IsNumeric(b[k]) && ParseNat(a[k]) == ParseNat(b[k])
  }

  lemma {:induction false} ComparableUnlessTie(a: seq<string>, b: seq<string>)
    ensures (a == b || CompareIdentifiers(a, b) < 0 || CompareIdentifiers(b, a) < 0) <==> !exists k: nat :: NumericTie(a, b, k)
  {
    if a != [] && b != [] {
      if a[0] == b[0] {
        ComparableUnlessTie(a[1..], b[1..]);
        assert a == [a[0]] + a[1..] && b == [b[0]] + b[1..];
        if k: nat :| NumericTie(a[1..], b[1..], k) {
          assert a[..k + 1] == [a[0]] + a[1..][..k] && b[..k + 1] == [b[0]] + b[1..][..k];
          assert NumericTie(a, b, k + 1);
        }
        if k: nat :| NumericTie(a, b, k) {
          assert a[1..][..k - 1] == a[..k][1..] == b[..k][1..] == b[1..][..k - 1];
          assert NumericTie(a[1..], b[1..], k - 1);
        }
      } else {
        StrTotal(a[0], b[0]);
        if IsNumeric(a[0]) && IsNumeric(b[0]) && ParseNat(a[0]) == ParseNat(b[0]) {
          assert NumericTie(a, b, 0);
        }
      }
    }
  }

  /** Exactly when the order is total: two versions fail to compare if and only if their numbers
      agree and their pre-releases first differ in two spellings of one number. */
  lemma TotalUnlessNumericTie(a: Version, b: Version)
    ensures (Same(a, b) || Less(a, b) || Less(b, a))
       <==> !((a.major, a.minor, a.patch) == (b.major, b.minor, b.patch) && exists k: nat :: NumericTie(a.prerelease, b.prerelease, k))
  {
    ComparableUnlessTie(a.prerelease, b.prerelease);
    CompareMatchesLex(a.prerelease, b.prerelease);
  }

  // ---------------------------------------------------------------- ranges

  datatype Operator = Eq | Gt | Ge | Lt | Le

  datatype Comparator = Comparator(operator: Operator, version: Version)

  /** The comparisons functools.total_ordering derives from __lt__ and __eq__. */
  predicate Matches(c: Comparator, v: Version)
  {
    match c.operator
    case Eq => Same(v, c.version)
    case Gt => !Less(v, c.version) && !Same(v, c.version)
    case Ge => !Less(v, c.version)
    case Lt => Less(v, c.version)
    case Le => Less(v, c.version) || Same(v, c.version)
  }

  predicate RangeMatches(range: seq<Comparator>, v: Version)
  {
    forall i :: 0 <= i < |range| ==> Matches(range[i], v)
  }

  lemma SameOrder(a: Version, b: Version, c: Version)
    requires Same(a, b)
    ensures Less(a, c) <==> Less(b, c)
    ensures Less(c, a) <==> Less(c, b)
  {
  }

  /** The numbers agree, and the pre-releases first differ in two spellings of one number. */
  ghost predicate Tied(a: Version, b: Version)
  {
    (a.major, a.minor, a.patch) == (b.major, b.minor, b.patch) && exists k: nat :: NumericTie(a.prerelease, b.prerelease, k)
  }

  /** What the operator asks of a version, in terms of item 11. */
  ghost predicate Satisfies(v: Version, operator: Operator, bound: Version)
  {
    match operator
    case Eq => Same(v, bound)
    case Gt => Precedes(bound, v)
    case Ge => Precedes(bound, v) || Same(v, bound)
    case Lt => Precedes(v, bound)
    case Le => Precedes(v, bound) || Same(v, bound)
  }

  lemma NotBothPrecede(a: Version, b: Version)
    ensures !(Less(a, b) && Less(b, a)) && (Same(a, b) ==> !Less(a, b) && !Less(b, a))
  {
    if Less(a, b) && Less(b, a) {
      LessTransitive(a, b, a);
      LessIrreflexive(a, a);
    }
    if Same(a, b) {
      LessIrreflexive(a, b);
      LessIrreflexive(b, a);
    }
  }

  /** A comparator matches exactly the versions that satisfy its operator; with > and >= it also
      matches what it is tied with. */
  lemma ComparatorExactly(c: Comparator, v: Version)
    ensures Matches(c, v) <==>
      Satisfies(v, c.operator, c.version) || ((c.operator.Gt? || c.operator.Ge?) && Tied(v, c.version))
  {
    LessIsItem11(v, c.version);
    LessIsItem11(c.version, v);
    NotBothPrecede(v, c.version);
    TotalUnlessNumericTie(v, c.version);
    hide Less, Precedes, NumericTie;
  }

  lemma {:induction false} CanonicalNeverTied(a: Version, b: Version)
    requires Canonical(a) && Canonical(b)
    ensures !Tied(a, b)
  {
    LessTotal(a, b);
    TotalUnlessNumericTie(a, b);
    hide Less, Same, NumericTie;
  }

  /** On the versions the parser yields, a range matches exactly the versions that satisfy each of its
      comparators. */
  lemma RangeExactly(range: seq<Comparator>, v: Version)
    requires Canonical(v) && forall i :: 0 <= i < |range| ==> Canonical(range[i].version)
    ensures RangeMatches(range, v) <==> forall i :: 0 <= i < |range| ==> Satisfies(v, range[i].operator, range[i].version)
  {
    hide Matches, Satisfies, Canonical, Tied;
    forall i | 0 <= i < |range| ensures Matches(range[i], v) <==> Satisfies(v, range[i].operator, range[i].version) {
      ComparatorExactly(range[i], v);
      CanonicalNeverTied(v, range[i].version);
    }
  }

  lemma ComparatorConvex(c: Comparator, low: Version, mid: Version, high: Version)
    requires Canonical(c.version) && Canonical(low) && Canonical(mid) && Canonical(high)
    requires Less(low, mid) && Less(mid, high)
    requires Matches(c, low) && Matches(c, high)
    ensures Matches(c, mid)
  {
    LessTotal(low, c.version);
    LessTotal(mid, c.version);
    LessTotal(high, c.version);
    match c.operator
    case Eq =>
      LessTransitive(low, mid, high);
      LessIrreflexive(low, high);
    case Gt | Ge =>
      if Less(mid, c.version) { LessTransitive(low, mid, c.version); }
      if Same(mid, c.version) { SameOrder(mid, c.version, low); }
    case Lt | Le =>
      if Less(c.version, mid) { LessTransitive(c.version, mid, high); }
      if Same(mid, c.version) { SameOrder(mid, c.version, high); }
  }

  /** Every range matches a convex set of versions. */
  lemma RangeConvex(range: seq<Comparator>, low: Version, mid: Version, high: Version)
    requires forall i :: 0 <= i < |range| ==> Canonical(range[i].version)
    requires Canonical(low) && Canonical(mid) && Canonical(high)
    requires Less(low, mid) && Less(mid, high)
    requires RangeMatches(range, low) && RangeMatches(range, high)
    ensures RangeMatches(range, mid)
  {
    forall i | 0 <= i < |range| ensures Matches(range[i], mid) {
      ComparatorConvex(range[i], low, mid, high);
    }
  }

  /** Ranges cannot tell versions apart that differ only in build metadata. */
  lemma RangeIgnoresBuild(range: seq<Comparator>, a: Version, b: Version)
    requires Same(a, b)
    ensures RangeMatches(range, a) <==> RangeMatches(range, b)
  {
    forall i | 0 <= i < |range| ensures Matches(range[i], a) <==> Matches(range[i], b) {
      SameOrder(a, b, range[i].version);
    }
  }
}
