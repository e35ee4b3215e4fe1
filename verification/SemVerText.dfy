/** The version and range texts: printer, parser, and the round trips between them. */
module SemVerText {
  import opened Wrappers
  import opened SemVer

  // ---------------------------------------------------------------- splitting text

  /** The text before and after the first occurrence of c. */
  function Cut(s: string, c: char): (r: (string, Option<string>))
    ensures c !in r.0
    ensures r.1.Some? ==> s == r.0 + [c] + r.1.value
    ensures r.1.None? ==> s == r.0
  {
    if s == "" then ("", None)
    else if s[0] == c then ("", Some(s[1..]))
    else
      var (head, tail) := Cut(s[1..], c);
      assert s == [s[0]] + s[1..];
      ([s[0]] + head, tail)
  }

  lemma {:induction false} CutUnique(a: string, b: string, c: char)
    requires c !in a
    ensures Cut(a, c) == (a, None)
    ensures Cut(a + [c] + b, c) == (a, Some(b))
  {
    if a == "" {
      assert a + [c] + b == [c] + b;
      assert ([c] + b)[1..] == b;
    } else {
      CutUnique(a[1..], b, c);
      assert (a + [c] + b)[1..] == a[1..] + [c] + b;
      assert a == [a[0]] + a[1..];
    }
  }

  /** s.split(c) */
  function Split(s: string, c: char): (parts: seq<string>)
    ensures parts != []
    ensures forall i :: 0 <= i < |parts| ==> c !in parts[i]
    ensures Join(parts, c) == s
    decreases |s|
  {
    var (head, tail) := Cut(s, c);
    if tail.None? then [head] else
      var rest := Split(tail.value, c);
      assert ([head] + rest)[1..] == rest;
      [head] + rest
  }

  /** c.join(parts) */
  function Join(parts: seq<string>, c: char): string
  {
    if parts == [] then ""
    else if |parts| == 1 then parts[0]
    else parts[0] + [c] + Join(parts[1..], c)
  }

  lemma {:induction false} SplitJoin(parts: seq<string>, c: char)
    requires parts != [] && forall i :: 0 <= i < |parts| ==> c !in parts[i]
    ensures Split(Join(parts, c), c) == parts
  {
    if |parts| == 1 {
      CutUnique(parts[0], "", c);
      assert parts == [parts[0]];
    } else {
      CutUnique(parts[0], Join(parts[1..], c), c);
      SplitJoin(parts[1..], c);
      assert parts == [parts[0]] + parts[1..];
    }
  }

  lemma {:induction false} JoinChars(parts: seq<string>, c: char, x: char)
    requires x != c && forall i :: 0 <= i < |parts| ==> x !in parts[i]
    ensures x !in Join(parts, c)
  {
    if |parts| > 1 {
      JoinChars(parts[1..], c, x);
    }
  }

  // ---------------------------------------------------------------- versions

  function Core(v: Version): string { Join([PrintNat(v.major), PrintNat(v.minor), PrintNat(v.patch)], '.') }

  /** __str__ */
  function Print(v: Version): string
  {
    Core(v)
    + (if v.prerelease != [] then "-" + Join(v.prerelease, '.') else "")
    + (if v.build != [] then "+" + Join(v.build, '.') else "")
  }

  predicate AllNumerals(parts: seq<string>) { forall i :: 0 <= i < |parts| ==> IsNumeral(parts[i]) }

  predicate AllPrereleaseIds(parts: seq<string>) { forall i :: 0 <= i < |parts| ==> IsPrereleaseId(parts[i]) }

  predicate AllIdentifiers(parts: seq<string>) { forall i :: 0 <= i < |parts| ==> IsIdentifier(parts[i]) }

  /** A full match of the version pattern: the first '+' opens the build metadata and, before it,
      the first '-' opens the pre-release. */
  function Parse(s: string): Option<Version>
  {
    var (main, buildText) := Cut(s, '+');
    var (core, preText) := Cut(main, '-');
    var numbers := Split(core, '.');
    var pre := if preText.None? then [] else Split(preText.value, '.');
    var build := if buildText.None? then [] else Split(buildText.value, '.');
    if |numbers| == 3 && AllNumerals(numbers) && AllPrereleaseIds(pre) && AllIdentifiers(build)
    then Some(Version(ParseNat(numbers[0]), ParseNat(numbers[1]), ParseNat(numbers[2]), pre, build))
    else None
  }

  lemma PartsFree(parts: seq<string>, c: char)
    requires AllIdentifiers(parts) && c != '-' && !IsIdentifierChar(c)
    ensures forall i :: 0 <= i < |parts| ==> c !in parts[i]
  {
  }

  lemma DigitsFree(s: string, c: char)
    requires AllDigits(s) && !IsDigit(c)
    ensures c !in s
  {
  }

  lemma CoreChars(v: Version)
    ensures '+' !in Core(v) && '-' !in Core(v)
    ensures Split(Core(v), '.') == [PrintNat(v.major), PrintNat(v.minor), PrintNat(v.patch)]
  {
    var parts := [PrintNat(v.major), PrintNat(v.minor), PrintNat(v.patch)];
    forall i | 0 <= i < 3 ensures '+' !in parts[i] && '-' !in parts[i] && '.' !in parts[i] {
      DigitsFree(parts[i], '+');
      DigitsFree(parts[i], '-');
      DigitsFree(parts[i], '.');
    }
    JoinChars(parts, '.', '+');
    JoinChars(parts, '.', '-');
    SplitJoin(parts, '.');
  }

  /** The text before the build metadata. */
  function MainText(v: Version): string
  {
    Core(v) + (if v.prerelease != [] then "-" + Join(v.prerelease, '.') else "")
  }

  lemma MainTextParts(v: Version)
    requires Canonical(v)
    ensures '+' !in MainText(v)
    ensures Cut(MainText(v), '-') == (Core(v), if v.prerelease != [] then Some(Join(v.prerelease, '.')) else None)
    ensures v.prerelease != [] ==> Split(Join(v.prerelease, '.'), '.') == v.prerelease
  {
    CoreChars(v);
    PartsFree(v.prerelease, '+');
    PartsFree(v.prerelease, '.');
    JoinChars(v.prerelease, '.', '+');
    var pre := Join(v.prerelease, '.');
    CutUnique(Core(v), pre, '-');
    if v.prerelease != [] {
      SplitJoin(v.prerelease, '.');
      assert MainText(v) == Core(v) + ['-'] + pre;
    } else {
      assert MainText(v) == Core(v);
    }
  }

  lemma PrintParts(v: Version)
    requires Canonical(v)
    ensures Cut(Print(v), '+') == (MainText(v), if v.build != [] then Some(Join(v.build, '.')) else None)
    ensures v.build != [] ==> Split(Join(v.build, '.'), '.') == v.build
  {
    MainTextParts(v);
    PartsFree(v.build, '.');
    var build := Join(v.build, '.');
    CutUnique(MainText(v), build, '+');
    if v.build != [] {
      SplitJoin(v.build, '.');
      assert Print(v) == MainText(v) + ['+'] + build;
    } else {
      assert Print(v) == MainText(v);
    }
  }

  /** Parsing a printed canonical version gives it back, build metadata included. */
  lemma ParsePrint(v: Version)
    requires Canonical(v)
    ensures Parse(Print(v)) == Some(v)
  {
    PrintParts(v);
    MainTextParts(v);
    CoreChars(v);
    ParsePrintNat(v.major);
    ParsePrintNat(v.minor);
    ParsePrintNat(v.patch);
    hide Split, Cut, PrintNat, ParseNat, Join, Core, MainText, Print;
  }

  lemma CoreBack(core: string, numbers: seq<string>, v: Version)
    requires numbers == Split(core, '.') && |numbers| == 3 && AllNumerals(numbers)
    requires v.major == ParseNat(numbers[0]) && v.minor == ParseNat(numbers[1]) && v.patch == ParseNat(numbers[2])
    ensures Core(v) == core
  {
    PrintParseNat(numbers[0]);
    PrintParseNat(numbers[1]);
    PrintParseNat(numbers[2]);
    hide Split, PrintNat, ParseNat, Join;
    assert numbers == [PrintNat(v.major), PrintNat(v.minor), PrintNat(v.patch)];
  }

  /** Whatever the parser accepts is canonical and prints as exactly the text that was read. */
  lemma PrintParse(s: string)
    requires Parse(s).Some?
    ensures Canonical(Parse(s).value) && Print(Parse(s).value) == s
  {
    hide Split, Cut, PrintNat, ParseNat, Join, Core;
    var v := Parse(s).value;
    var (main, buildText) := Cut(s, '+');
    var (core, preText) := Cut(main, '-');
    CoreBack(core, Split(core, '.'), v);
    JoinEmpty('.');
    assert MainText(v) == main;
  }

  lemma JoinEmpty(c: char)
    ensures Join([], c) == ""
  {
  }

  /** The parser accepts exactly the printed forms of canonical versions. */
  lemma ParserAcceptsPrintedForms(s: string, v: Version)
    ensures Parse(s) == Some(v) <==> Canonical(v) && Print(v) == s
  {
    if Parse(s) == Some(v) { PrintParse(s); }
    if Canonical(v) && Print(v) == s { ParsePrint(v); }
  }

  // ---------------------------------------------------------------- ranges

  predicate IsSpace(c: char) { '\t' <= c <= '\r' || '\U{1C}' <= c <= ' ' }

  /** value == value.strip() */
  predicate Trimmed(s: string) { s != "" ==> !IsSpace(s[0]) && !IsSpace(s[|s| - 1]) }

  function PrintOperator(o: Operator): string
  {
    match o
    case Eq => "="
    case Gt => ">"
    case Ge => ">="
    case Lt => "<"
    case Le => "<="
  }

  function PrintComparator(c: Comparator): string { PrintOperator(c.operator) + Print(c.version) }

  function PrintComparators(range: seq<Comparator>): seq<string>
  {
    if range == [] then [] else [PrintComparator(range[0])] + PrintComparators(range[1..])
  }

  /** __str__ of a range: a single exact version prints bare. */
  function PrintRange(range: seq<Comparator>): string
  {
    if |range| == 1 && range[0].operator == Eq then Print(range[0].version)
    else Join(PrintComparators(range), ',')
  }

  /** The operator prefix, longest first; a missing operator means "=". */
  function CutOperator(s: string): (Operator, string)
  {
    if ">=" <= s then (Ge, s[2..])
    else if "<=" <= s then (Le, s[2..])
    else if ">" <= s then (Gt, s[1..])
    else if "<" <= s then (Lt, s[1..])
    else if "=" <= s then (Eq, s[1..])
    else (Eq, s)
  }

  function ParseComparator(s: string): Option<Comparator>
  {
    if s == "" || !Trimmed(s) then None
    else
      var (operator, text) := CutOperator(s);
      var version := Parse(text);
      if version.None? then None else Some(Comparator(operator, version.value))
  }

  function ParseComparators(parts: seq<string>): Option<seq<Comparator>>
  {
    if parts == [] then Some([])
    else
      var first := ParseComparator(parts[0]);
      var rest := ParseComparators(parts[1..]);
      if first.None? || rest.None? then None else Some([first.value] + rest.value)
  }

  function ParseRange(s: string): Option<seq<Comparator>>
  {
    if s == "" || !Trimmed(s) then None else ParseComparators(Split(s, ','))
  }

  predicate PlainChar(c: char) { IsIdentifierChar(c) || c == '.' || c == '+' }

  predicate Plain(s: string) { forall i :: 0 <= i < |s| ==> PlainChar(s[i]) }

  lemma {:induction false} JoinPlain(parts: seq<string>)
    requires forall i :: 0 <= i < |parts| ==> Plain(parts[i])
    ensures Plain(Join(parts, '.'))
  {
    if |parts| > 1 { JoinPlain(parts[1..]); }
  }

  lemma PlainConcat(a: string, b: string)
    requires Plain(a) && Plain(b)
    ensures Plain(a + b)
  {
  }

  lemma PrintStartsWithDigit(v: Version)
    ensures Print(v) != "" && IsDigit(Print(v)[0])
  {
    var n := PrintNat(v.major);
    assert Core(v)[0] == n[0];
    assert Print(v)[0] == Core(v)[0];
  }

  lemma PrintIsPlain(v: Version)
    requires Canonical(v)
    ensures Plain(Print(v))
  {
    JoinPlain([PrintNat(v.major), PrintNat(v.minor), PrintNat(v.patch)]);
    JoinPlain(v.prerelease);
    JoinPlain(v.build);
    PlainConcat("-", Join(v.prerelease, '.'));
    PlainConcat("+", Join(v.build, '.'));
    PlainConcat(Core(v), if v.prerelease != [] then "-" + Join(v.prerelease, '.') else "");
    PlainConcat(MainText(v), if v.build != [] then "+" + Join(v.build, '.') else "");
  }

  lemma CutPrintedOperator(o: Operator, text: string)
    requires text != "" && IsDigit(text[0])
    ensures CutOperator(PrintOperator(o) + text) == (o, text)
    ensures CutOperator(text) == (Eq, text)
  {
    var s := PrintOperator(o) + text;
    match o
    case Ge => assert s[2..] == text;
    case Le => assert s[2..] == text;
    case Gt => assert s[1] == text[0] && s[1..] == text;
    case Lt => assert s[1] == text[0] && s[1..] == text;
    case Eq => assert s[0] == '=' && s[1..] == text;
  }

  lemma PrintedText(v: Version)
    requires Canonical(v)
    ensures var text := Print(v); ',' !in text && text != "" && IsDigit(text[0]) && PlainChar(text[|text| - 1])
  {
    PrintStartsWithDigit(v);
    PrintIsPlain(v);
    assert !PlainChar(',');
  }

  lemma ComparatorRoundTrip(c: Comparator)
    requires Canonical(c.version)
    ensures ParseComparator(PrintComparator(c)) == Some(c)
    ensures ',' !in PrintComparator(c) && PrintComparator(c) != "" && Trimmed(PrintComparator(c))
    ensures ',' !in Print(c.version) && Trimmed(Print(c.version))
    ensures ParseComparator(Print(c.version)) == Some(Comparator(Eq, c.version))
  {
    PrintedText(c.version);
    ParsePrint(c.version);
    hide Print, Parse, CutOperator, Canonical;
    CutPrintedOperator(c.operator, Print(c.version));
    OperatorText(c.operator, Print(c.version));
    hide Trimmed;
  }

  lemma OperatorText(o: Operator, text: string)
    requires ',' !in text && text != "" && IsDigit(text[0]) && PlainChar(text[|text| - 1])
    ensures var s := PrintOperator(o) + text; ',' !in s && s != "" && Trimmed(s)
    ensures Trimmed(text)
  {
    var s := PrintOperator(o) + text;
    assert s[|s| - 1] == text[|text| - 1];
    assert ',' !in PrintOperator(o);
  }

  lemma {:induction false} PrintedAt(range: seq<Comparator>, i: nat)
    requires i < |range|
    ensures |PrintComparators(range)| == |range| && PrintComparators(range)[i] == PrintComparator(range[i])
  {
    hide PrintComparator;
    if i > 0 { PrintedAt(range[1..], i - 1); } else if |range| > 1 { PrintedAt(range[1..], 0); }
  }

  lemma {:induction false} ParsesPrinted(range: seq<Comparator>)
    requires forall i :: 0 <= i < |range| ==> Canonical(range[i].version)
    ensures ParseComparators(PrintComparators(range)) == Some(range)
  {
    hide ParseComparator, PrintComparator, Canonical;
    if range != [] {
      ComparatorRoundTrip(range[0]);
      ParsesPrinted(range[1..]);
      assert PrintComparators(range)[1..] == PrintComparators(range[1..]);
      assert range == [range[0]] + range[1..];
    }
  }

  lemma ComparatorsRoundTrip(range: seq<Comparator>)
    requires forall i :: 0 <= i < |range| ==> Canonical(range[i].version)
    ensures var parts := PrintComparators(range);
            && |parts| == |range|
            && (forall i :: 0 <= i < |parts| ==> parts[i] == PrintComparator(range[i]))
            && ParseComparators(parts) == Some(range)
  {
    ParsesPrinted(range);
    hide ParseComparators, PrintComparator, Canonical;
    if range != [] { PrintedAt(range, 0); }
    forall i | 0 <= i < |range| ensures PrintComparators(range)[i] == PrintComparator(range[i]) { PrintedAt(range, i); }
  }

  lemma {:induction false} JoinEnds(parts: seq<string>, c: char)
    requires parts != [] && forall i :: 0 <= i < |parts| ==> parts[i] != "" && Trimmed(parts[i])
    ensures Join(parts, c) != "" && Trimmed(Join(parts, c))
  {
    if |parts| > 1 { JoinEnds(parts[1..], c); }
  }

  /** Parsing a printed range gives back its comparators. */
  lemma RangeRoundTrip(range: seq<Comparator>)
    requires range != [] && forall i :: 0 <= i < |range| ==> Canonical(range[i].version)
    ensures ParseRange(PrintRange(range)) == Some(range)
  {
    ComparatorsRoundTrip(range);
    var parts := PrintComparators(range);
    forall i | 0 <= i < |parts| ensures ',' !in parts[i] && parts[i] != "" && Trimmed(parts[i]) {
      ComparatorRoundTrip(range[i]);
    }
    if |range| == 1 && range[0].operator == Eq {
      ComparatorRoundTrip(range[0]);
      PrintStartsWithDigit(range[0].version);
      var text := Print(range[0].version);
      SplitJoin([text], ',');
      assert Split(text, ',') == [text];
      assert ParseComparators([text][1..]) == Some([]);
      assert range == [Comparator(Eq, range[0].version)];
    } else {
      SplitJoin(parts, ',');
      JoinEnds(parts, ',');
    }
  }
}
