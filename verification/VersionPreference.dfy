/** Ordering of discovered binaries: newest semantic version first, and never dependent on enumeration order. */
module VersionPreference {
  import opened Prelude

  datatype Ordering = Less | Equal | Greater

  function Flip(o: Ordering): Ordering {
    match o
    case Less => Greater
    case Equal => Equal
    case Greater => Less
  }

  function Then(o: Ordering, next: Ordering): Ordering { if o == Equal then next else o }

  type Comparison<!T> = (T, T) -> Ordering

  /** Equal only on equal values, reversed by swapping, and transitive. */
  ghost predicate Total<T(!new)>(cmp: Comparison<T>) {
    && (forall x, y :: cmp(x, y) == Equal <==> x == y)
    && (forall x, y :: cmp(y, x) == Flip(cmp(x, y)))
    && (forall x, y, z :: cmp(x, y) == Less && cmp(y, z) == Less ==> cmp(x, z) == Less)
  }

  // ---------------------------------------------------------------------------------------------
  // Comparing lists

  function Lexical<T>(cmp: Comparison<T>, a: seq<T>, b: seq<T>): Ordering
    decreases |a|
  {
    if a == [] then if b == [] then Equal else Less
    else if b == [] then Greater
    else Then(cmp(a[0], b[0]), Lexical(cmp, a[1..], b[1..]))
  }

  /** The first difference decides; without one the shorter list is lower. */
  ghost predicate FirstDifferenceLower<T>(cmp: Comparison<T>, a: seq<T>, b: seq<T>) {
    exists k :: 0 <= k <= |a| && k <= |b| && DiffersAt(cmp, a, b, k)
  }

  ghost predicate DiffersAt<T>(cmp: Comparison<T>, a: seq<T>, b: seq<T>, k: nat)
    requires k <= |a| && k <= |b|
  {
    && a[..k] == b[..k]
    && k < |b|
    && (k < |a| ==> cmp(a[k], b[k]) == Less)
  }

  lemma {:induction false} LexicalMeaning<T(!new)>(cmp: Comparison<T>, a: seq<T>, b: seq<T>)
    requires Total(cmp)
    ensures Lexical(cmp, a, b) == Equal <==> a == b
    ensures Lexical(cmp, b, a) == Flip(Lexical(cmp, a, b))
    ensures Lexical(cmp, a, b) == Less <==> FirstDifferenceLower(cmp, a, b)
    decreases |a|
  {
    if a == [] || b == [] {
      if a == [] && b != [] {
        assert DiffersAt(cmp, a, b, 0);
      }
    } else {
      LexicalMeaning(cmp, a[1..], b[1..]);
      assert a == [a[0]] + a[1..] && b == [b[0]] + b[1..];
      DifferenceShifts(cmp, a, b);
    }
  }

  lemma DifferenceShifts<T(!new)>(cmp: Comparison<T>, a: seq<T>, b: seq<T>)
    requires Total(cmp) && a != [] && b != []
    ensures FirstDifferenceLower(cmp, a, b) <==>
      cmp(a[0], b[0]) == Less || (a[0] == b[0] && FirstDifferenceLower(cmp, a[1..], b[1..]))
  {
    if cmp(a[0], b[0]) == Less {
      assert DiffersAt(cmp, a, b, 0);
    }
    if a[0] == b[0] && FirstDifferenceLower(cmp, a[1..], b[1..]) {
      var k :| 0 <= k <= |a[1..]| && k <= |b[1..]| && DiffersAt(cmp, a[1..], b[1..], k);
      assert a[..k + 1] == [a[0]] + a[1..][..k] && b[..k + 1] == [b[0]] + b[1..][..k];
      assert DiffersAt(cmp, a, b, k + 1);
    }
    if FirstDifferenceLower(cmp, a, b) {
      var k :| 0 <= k <= |a| && k <= |b| && DiffersAt(cmp, a, b, k);
      if k > 0 {
        assert a[..k][0] == a[0] && b[..k][0] == b[0];
        assert a[1..][..k - 1] == a[..k][1..] && b[1..][..k - 1] == b[..k][1..];
        assert DiffersAt(cmp, a[1..], b[1..], k - 1);
      }
    }
  }

  lemma {:induction false} LexicalTransitive<T(!new)>(cmp: Comparison<T>, a: seq<T>, b: seq<T>, c: seq<T>)
    requires Total(cmp) && Lexical(cmp, a, b) == Less && Lexical(cmp, b, c) == Less
    ensures Lexical(cmp, a, c) == Less
    decreases |a|
  {
    if a != [] && cmp(a[0], b[0]) == Equal && cmp(b[0], c[0]) == Equal {
      LexicalTransitive(cmp, a[1..], b[1..], c[1..]);
    }
  }

  /** Lists of comparable values of any lengths are comparable. */
  lemma LexicalIsTotal<T(!new)>(cmp: Comparison<T>)
    requires Total(cmp)
    ensures Total((a: seq<T>, b: seq<T>) => Lexical(cmp, a, b))
  {
    forall a: seq<T>, b: seq<T> {
      LexicalMeaning(cmp, a, b);
    }
    forall a: seq<T>, b: seq<T>, c: seq<T> | Lexical(cmp, a, b) == Less && Lexical(cmp, b, c) == Less {
      LexicalTransitive(cmp, a, b, c);
    }
  }

  // ---------------------------------------------------------------------------------------------
  // Versions

  datatype Identifier = Numeric(number: nat) | Alphanumeric(text: string)

  datatype Semver = Semver(major: nat, minor: nat, patch: nat, prerelease: Option<seq<Identifier>>)

  function CompareNumbers(a: nat, b: nat): Ordering { if a < b then Less else if a == b then Equal else Greater }

  function CompareChars(a: char, b: char): Ordering { if a < b then Less else if a == b then Equal else Greater }

  function CompareTexts(a: string, b: string): Ordering { Lexical(CompareChars, a, b) }

  function CompareIdentifiers(a: Identifier, b: Identifier): Ordering {
    match (a, b)
    case (Numeric(x), Numeric(y)) => CompareNumbers(x, y)
    case (Numeric(_), Alphanumeric(_)) => Less
    case (Alphanumeric(_), Numeric(_)) => Greater
    case (Alphanumeric(x), Alphanumeric(y)) => CompareTexts(x, y)
  }

  function CompareFields(a: seq<Identifier>, b: seq<Identifier>): Ordering { Lexical(CompareIdentifiers, a, b) }

  /** A missing value is higher than any present one. */
  function MissingHighest<T>(cmp: Comparison<T>, a: Option<T>, b: Option<T>): Ordering {
    match (a, b)
    case (None, None) => Equal
    case (None, Some(_)) => Greater
    case (Some(_), None) => Less
    case (Some(x), Some(y)) => cmp(x, y)
  }

  function ComparePrereleases(a: Option<seq<Identifier>>, b: Option<seq<Identifier>>): Ordering {
    MissingHighest(CompareFields, a, b)
  }

  function CompareVersions(a: Semver, b: Semver): Ordering {
    Then(CompareNumbers(a.major, b.major),
      Then(CompareNumbers(a.minor, b.minor),
        Then(CompareNumbers(a.patch, b.patch), ComparePrereleases(a.prerelease, b.prerelease))))
  }

  lemma TextsAreTotal()
    ensures Total(CompareTexts)
  {
    LexicalIsTotal(CompareChars);
    var lexical := (a: string, b: string) => Lexical(CompareChars, a, b);
    assert forall a: string, b: string :: CompareTexts(a, b) == lexical(a, b);
  }

  lemma IdentifiersAreTotal()
    ensures Total(CompareIdentifiers)
  {
    TextsAreTotal();
  }

  lemma FieldsAreTotal()
    ensures Total(CompareFields)
  {
    IdentifiersAreTotal();
    LexicalIsTotal(CompareIdentifiers);
    var lexical := (a: seq<Identifier>, b: seq<Identifier>) => Lexical(CompareIdentifiers, a, b);
    assert forall a: seq<Identifier>, b: seq<Identifier> :: CompareFields(a, b) == lexical(a, b);
  }

  lemma MissingHighestIsTotal<T(!new)>(cmp: Comparison<T>)
    requires Total(cmp)
    ensures Total((a: Option<T>, b: Option<T>) => MissingHighest(cmp, a, b))
  {
  }

  lemma PrereleasesAreTotal()
    ensures Total(ComparePrereleases)
  {
    FieldsAreTotal();
    MissingHighestIsTotal(CompareFields);
    var lifted := (a: Option<seq<Identifier>>, b: Option<seq<Identifier>>) => MissingHighest(CompareFields, a, b);
    assert forall a: Option<seq<Identifier>>, b: Option<seq<Identifier>> :: ComparePrereleases(a, b) == lifted(a, b);
  }

  lemma VersionsAreTotal()
    ensures Total(CompareVersions)
  {
    PrereleasesAreTotal();
  }

  /** Precedence as item 11 of Semantic Versioning 2.0.0 words it: a is lower than b. */
  ghost predicate LowerPrecedence(a: Semver, b: Semver) {
    if a.major != b.major then a.major < b.major
    else if a.minor != b.minor then a.minor < b.minor
    else if a.patch != b.patch then a.patch < b.patch
    else a.prerelease.Some? && (b.prerelease.None? || LowerFields(a.prerelease.value, b.prerelease.value))
  }

  /** Fields compare from left to right; with all preceding fields equal the longer list is higher. */
  ghost predicate LowerFields(a: seq<Identifier>, b: seq<Identifier>) {
    exists k :: 0 <= k <= |a| && k <= |b| && DiffersAtField(a, b, k)
  }

  ghost predicate DiffersAtField(a: seq<Identifier>, b: seq<Identifier>, k: nat)
    requires k <= |a| && k <= |b|
  {
    a[..k] == b[..k] && k < |b| && (k < |a| ==> LowerIdentifier(a[k], b[k]))
  }

  /** Numbers numerically, texts in ASCII order, and numbers below texts. */
  ghost predicate LowerIdentifier(a: Identifier, b: Identifier) {
    if a.Numeric? then b.Numeric? ==> a.number < b.number
    else b.Alphanumeric? && LowerText(a.text, b.text)
  }

  ghost predicate LowerText(a: string, b: string) {
    exists k :: 0 <= k <= |a| && k <= |b| && a[..k] == b[..k] && k < |b| && (k < |a| ==> a[k] < b[k])
  }

  lemma TextMeaning(a: string, b: string)
    ensures CompareTexts(a, b) == Less <==> LowerText(a, b)
  {
    LexicalMeaning(CompareChars, a, b);
    if FirstDifferenceLower(CompareChars, a, b) {
      var k :| 0 <= k <= |a| && k <= |b| && DiffersAt(CompareChars, a, b, k);
      assert a[..k] == b[..k] && k < |b| && (k < |a| ==> a[k] < b[k]);
    }
    if LowerText(a, b) {
      var k :| 0 <= k <= |a| && k <= |b| && a[..k] == b[..k] && k < |b| && (k < |a| ==> a[k] < b[k]);
      assert DiffersAt(CompareChars, a, b, k);
    }
  }

  lemma FieldsMeaning(a: seq<Identifier>, b: seq<Identifier>)
    ensures Lexical(CompareIdentifiers, a, b) == Less <==> LowerFields(a, b)
  {
    IdentifiersAreTotal();
    LexicalMeaning(CompareIdentifiers, a, b);
    forall x: Identifier, y: Identifier
      ensures CompareIdentifiers(x, y) == Less <==> LowerIdentifier(x, y)
    {
      if x.Alphanumeric? && y.Alphanumeric? {
        TextMeaning(x.text, y.text);
      }
    }
    assert forall k | 0 <= k <= |a| && k <= |b| :: DiffersAt(CompareIdentifiers, a, b, k) <==> DiffersAtField(a, b, k);
  }

  /** The comparison is a total order and is exactly the precedence of the standard. */
  lemma PrecedenceIsStandard(a: Semver, b: Semver)
    ensures CompareVersions(a, b) == Less <==> LowerPrecedence(a, b)
    ensures CompareVersions(a, b) == Greater <==> LowerPrecedence(b, a)
    ensures CompareVersions(a, b) == Equal <==> a == b
  {
    VersionsAreTotal();
    if a.prerelease.Some? && b.prerelease.Some? {
      FieldsMeaning(a.prerelease.value, b.prerelease.value);
      FieldsMeaning(b.prerelease.value, a.prerelease.value);
    }
    assert CompareVersions(b, a) == Flip(CompareVersions(a, b));
  }

  /** The field-by-field loop computes that order. */
  method ComparePrereleaseFields(a: seq<Identifier>, b: seq<Identifier>) returns (o: Ordering)
    ensures o == ComparePrereleases(Some(a), Some(b))
  {
    var i := 0;
    while i < |a| && i < |b|
      invariant 0 <= i <= |a| && i <= |b|
      invariant Lexical(CompareIdentifiers, a[i..], b[i..]) == Lexical(CompareIdentifiers, a, b)
    {
      var ordering := CompareIdentifiers(a[i], b[i]);
      assert a[i..][1..] == a[i + 1..] && b[i..][1..] == b[i + 1..];
      if ordering != Equal {
        return ordering;
      }
      i := i + 1;
    }
    o := CompareNumbers(|a|, |b|);
  }

  // ---------------------------------------------------------------------------------------------
  // Reading numbers

  predicate Digit(c: char) { '0' <= c <= '9' }

  predicate Digits(s: string) { forall i | 0 <= i < |s| :: Digit(s[i]) }

  function Value(s: string): nat
    requires Digits(s)
  {
    if s == [] then 0 else Value(s[..|s| - 1]) * 10 + (s[|s| - 1] as int - '0' as int)
  }

  /** Decimal without leading zeros, within 64 bits. */
  function ParseNumber(s: string): Option<nat> {
    if s == [] || !Digits(s) || (|s| > 1 && s[0] == '0') || Value(s) > U64_MAX then None else Some(Value(s))
  }

  function ParseIdentifier(s: string): Option<Identifier> {
    if Digits(s) then
      match ParseNumber(s)
      case Some(n) => Some(Numeric(n))
      case None => None
    else Some(Alphanumeric(s))
  }

  lemma {:induction false} NoLeadingZero(s: string)
    requires Digits(s) && s != [] && s[0] != '0'
    ensures Value(s) > 0
  {
    if |s| > 1 {
      NoLeadingZero(s[..|s| - 1]);
    } else {
      assert s[..0] == [];
    }
  }

  lemma {:induction false} ValueInjective(s: string, t: string)
    requires Digits(s) && Digits(t) && Value(s) == Value(t)
    requires (s != [] ==> s[0] != '0') && (t != [] ==> t[0] != '0')
    ensures s == t
    decreases |s|
  {
    if s == [] || t == [] {
      if s != [] { NoLeadingZero(s); }
      if t != [] { NoLeadingZero(t); }
    } else {
      var s', t' := s[..|s| - 1], t[..|t| - 1];
      assert Value(s) == Value(s') * 10 + (s[|s| - 1] as int - '0' as int);
      assert Value(t) == Value(t') * 10 + (t[|t| - 1] as int - '0' as int);
      ValueInjective(s', t');
      assert s == s' + [s[|s| - 1]] && t == t' + [t[|t| - 1]];
    }
  }

  /** Different spellings are different identifiers, so versions of equal precedence read the same. */
  lemma ParsingIsInjective(s: string, t: string)
    requires ParseIdentifier(s).Some? && ParseIdentifier(s) == ParseIdentifier(t)
    ensures s == t
  {
    if Digits(s) {
      assert Digits(t) && Value(s) == Value(t);
      ZeroIsItself(s);
      ZeroIsItself(t);
      if s[0] != '0' && t[0] != '0' {
        ValueInjective(s, t);
      }
    }
  }

  lemma ZeroIsItself(s: string)
    requires ParseNumber(s).Some?
    ensures s[0] == '0' <==> Value(s) == 0
    ensures s[0] == '0' <==> s == "0"
  {
    if s[0] == '0' {
      assert s == "0" && s[..0] == [];
    } else {
      NoLeadingZero(s);
    }
  }

  // ---------------------------------------------------------------------------------------------
  // Preference

  datatype Source = KodyCodexPath | PathVariable | ChatGptBundle

  /** A probed binary; `version` is what was recognised in its output, `path` the components of its path. */
  datatype Binary = Binary(version: Option<Semver>, source: Source, path: seq<string>, output: string)

  function SourceRank(s: Source): nat {
    match s
    case KodyCodexPath => 0
    case PathVariable => 1
    case ChatGptBundle => 2
  }

  function ComparePaths(a: seq<string>, b: seq<string>): Ordering { Lexical(CompareTexts, a, b) }

  function ComparePlaces(a: Binary, b: Binary): Ordering {
    Then(CompareNumbers(SourceRank(a.source), SourceRank(b.source)), ComparePaths(a.path, b.path))
  }

  function ComparePreference(a: Binary, b: Binary): Ordering {
    match (a.version, b.version)
    case (Some(x), Some(y)) => Then(CompareVersions(y, x), ComparePlaces(a, b))
    case (Some(_), None) => Less
    case (None, Some(_)) => Greater
    case (None, None) => ComparePlaces(a, b)
  }

  lemma PathsAreTotal()
    ensures Total(ComparePaths)
  {
    TextsAreTotal();
    LexicalIsTotal(CompareTexts);
    var lexical := (a: seq<string>, b: seq<string>) => Lexical(CompareTexts, a, b);
    assert forall a: seq<string>, b: seq<string> :: ComparePaths(a, b) == lexical(a, b);
  }

  /** Recognised versions before others, newer before older; ties end only at the same path and source. */
  lemma PreferenceMeaning(a: Binary, b: Binary)
    ensures ComparePreference(b, a) == Flip(ComparePreference(a, b))
    ensures ComparePreference(a, b) == Equal <==> a.version == b.version && a.source == b.source && a.path == b.path
    ensures a.version.Some? && b.version.None? ==> ComparePreference(a, b) == Less
    ensures a.version.Some? && b.version.Some? && LowerPrecedence(b.version.value, a.version.value) ==>
      ComparePreference(a, b) == Less
  {
    PathsAreTotal();
    if a.version.Some? && b.version.Some? {
      PrecedenceIsStandard(a.version.value, b.version.value);
      PrecedenceIsStandard(b.version.value, a.version.value);
    }
  }

  lemma PreferenceTransitive(a: Binary, b: Binary, c: Binary)
    requires ComparePreference(a, b) != Greater && ComparePreference(b, c) != Greater
    ensures ComparePreference(a, c) != Greater
  {
    PathsAreTotal();
    VersionsAreTotal();
  }

  // ---------------------------------------------------------------------------------------------
  // Sorting

  predicate Preferred(q: seq<Binary>) { forall i, j | 0 <= i < j < |q| :: ComparePreference(q[i], q[j]) != Greater }

  predicate DistinctPaths(q: seq<Binary>) { forall i, j | 0 <= i < j < |q| :: q[i].path != q[j].path }

  lemma SamePathSame(q: seq<Binary>, a: Binary, b: Binary)
    requires DistinctPaths(q) && a in q && b in q && a.path == b.path
    ensures a == b
  {
  }

  lemma TailsAgree(p: seq<Binary>, q: seq<Binary>)
    requires p != [] && q != [] && p[0] == q[0] && multiset(p) == multiset(q)
    ensures multiset(p[1..]) == multiset(q[1..])
  {
    assert p == [p[0]] + p[1..] && q == [q[0]] + q[1..];
    assert multiset(p[1..]) == multiset(p) - multiset{p[0]};
    assert multiset(q[1..]) == multiset(q) - multiset{q[0]};
  }

  lemma FirstsAgree(p: seq<Binary>, q: seq<Binary>)
    requires Preferred(p) && Preferred(q) && p != [] && q != [] && DistinctPaths(p)
    requires p[0] in q && q[0] in p
    ensures p[0] == q[0]
  {
    FirstIsPreferred(p, q[0]);
    FirstIsPreferred(q, p[0]);
    PreferenceMeaning(p[0], q[0]);
    SamePathSame(p, p[0], q[0]);
  }

  lemma FirstIsPreferred(p: seq<Binary>, b: Binary)
    requires Preferred(p) && b in p
    ensures ComparePreference(p[0], b) != Greater
  {
    var i :| 0 <= i < |p| && p[i] == b;
    PreferenceMeaning(b, b);
  }

  /** Sorting any two enumerations of the same binaries, with different paths, gives the same list. */
  lemma {:induction false} SortingIgnoresEnumeration(p: seq<Binary>, q: seq<Binary>)
    requires Preferred(p) && Preferred(q) && multiset(p) == multiset(q) && DistinctPaths(p)
    ensures p == q
    decreases |p|
  {
    assert |multiset(p)| == |p| && |multiset(q)| == |q|;
    if p != [] {
      assert p[0] in multiset(q) && q[0] in multiset(p);
      FirstsAgree(p, q);
      TailsAgree(p, q);
      SortingIgnoresEnumeration(p[1..], q[1..]);
      assert p == [p[0]] + p[1..] && q == [q[0]] + q[1..];
    }
  }

  /** Insertion behind everything not less preferred, so ties keep their order. */
  function Placed(q: seq<Binary>, b: Binary): (r: seq<Binary>)
    ensures |r| == |q| + 1
  {
    if q == [] then [b]
    else if ComparePreference(q[|q| - 1], b) == Greater then Placed(q[..|q| - 1], b) + [q[|q| - 1]]
    else q + [b]
  }

  /** The stable sort of a list of binaries. */
  function Ranked(q: seq<Binary>): (r: seq<Binary>)
    ensures |r| == |q|
  {
    if q == [] then [] else Placed(Ranked(q[..|q| - 1]), q[|q| - 1])
  }

  lemma WithLast(q: seq<Binary>)
    requires q != []
    ensures multiset(q) == multiset(q[..|q| - 1]) + multiset{q[|q| - 1]}
  {
    assert q == q[..|q| - 1] + [q[|q| - 1]];
  }

  lemma {:induction false} PlacedIsPermutation(q: seq<Binary>, b: Binary)
    ensures multiset(Placed(q, b)) == multiset(q) + multiset{b}
  {
    if q != [] && ComparePreference(q[|q| - 1], b) == Greater {
      PlacedIsPermutation(q[..|q| - 1], b);
      WithLast(q);
    }
  }

  lemma {:induction false} PlacedIsPreferred(q: seq<Binary>, b: Binary)
    requires Preferred(q)
    ensures Preferred(Placed(q, b))
  {
    if q != [] {
      var init, last := q[..|q| - 1], q[|q| - 1];
      if ComparePreference(last, b) == Greater {
        PlacedIsPreferred(init, b);
        PlacedIsPermutation(init, b);
        PreferenceMeaning(last, b);
        var r := Placed(init, b);
        forall i | 0 <= i < |r|
          ensures ComparePreference(r[i], last) != Greater
        {
          assert r[i] in multiset(r);
          if r[i] != b {
            assert r[i] in init;
          }
        }
      } else {
        forall i | 0 <= i < |q|
          ensures ComparePreference(q[i], b) != Greater
        {
          if i < |q| - 1 {
            PreferenceTransitive(q[i], last, b);
          }
        }
      }
    }
  }

  lemma {:induction false} RankedIsPreferred(q: seq<Binary>)
    ensures Preferred(Ranked(q)) && multiset(Ranked(q)) == multiset(q)
  {
    if q != [] {
      RankedIsPreferred(q[..|q| - 1]);
      PlacedIsPreferred(Ranked(q[..|q| - 1]), q[|q| - 1]);
      PlacedIsPermutation(Ranked(q[..|q| - 1]), q[|q| - 1]);
      WithLast(q);
    }
  }

  /** Discovery ranks the same binaries the same way in whatever order it came across them. */
  lemma RankingIgnoresEnumeration(p: seq<Binary>, q: seq<Binary>)
    requires multiset(p) == multiset(q) && DistinctPaths(p)
    ensures Ranked(p) == Ranked(q)
  {
    RankedIsPreferred(p);
    RankedIsPreferred(q);
    PermutationKeepsDistinct(p, Ranked(p));
    SortingIgnoresEnumeration(Ranked(p), Ranked(q));
  }

  lemma {:induction false} DistinctOnce(p: seq<Binary>, b: Binary)
    requires DistinctPaths(p)
    ensures multiset(p)[b] <= 1
  {
    if p != [] {
      var init, last := p[..|p| - 1], p[|p| - 1];
      assert p == init + [last];
      DistinctOnce(init, b);
      if b == last {
        assert last !in init;
        assert multiset(init)[b] == 0;
      }
    }
  }

  lemma RepeatedTwice(q: seq<Binary>, i: nat, j: nat)
    requires i < j < |q| && q[i] == q[j]
    ensures multiset(q)[q[i]] >= 2
  {
    assert q == q[..j] + [q[j]] + q[j + 1..];
    assert q[..j][i] in multiset(q[..j]);
  }

  lemma PermutationKeepsDistinct(p: seq<Binary>, q: seq<Binary>)
    requires multiset(p) == multiset(q) && DistinctPaths(p)
    ensures DistinctPaths(q)
  {
    forall i, j | 0 <= i < j < |q|
      ensures q[i].path != q[j].path
    {
      assert q[i] in multiset(p) && q[j] in multiset(p);
      if q[i].path == q[j].path {
        SamePathSame(p, q[i], q[j]);
        DistinctOnce(p, q[i]);
        RepeatedTwice(q, i, j);
      }
    }
  }

  /** The slice is sorted in place. */
  method SortByVersionPreference(a: array<Binary>)
    modifies a
    ensures a[..] == Ranked(old(a[..]))
  {
    ghost var was := a[..];
    var i := 0;
    while i < a.Length
      invariant 0 <= i <= a.Length
      invariant a[..i] == Ranked(was[..i])
      invariant a[i..] == was[i..]
    {
      PlaceLast(a, i);
      assert was[..i + 1][..i] == was[..i] && was[..i + 1][i] == was[i];
      i := i + 1;
    }
    assert was[..i] == was && a[..i] == a[..];
  }

  lemma PlacedBefore(was: seq<Binary>, j: nat, i: nat, b: Binary)
    requires 0 < j <= i <= |was| && ComparePreference(was[j - 1], b) == Greater
    ensures Placed(was[..j], b) + was[j..i] == Placed(was[..j - 1], b) + was[j - 1..i]
  {
    assert was[..j][..j - 1] == was[..j - 1];
    assert was[j - 1..i] == [was[j - 1]] + was[j..i];
  }

  lemma PlacedHere(q: seq<Binary>, b: Binary)
    requires q != [] ==> ComparePreference(q[|q| - 1], b) != Greater
    ensures Placed(q, b) == q + [b]
  {
  }

  method PlaceLast(a: array<Binary>, i: nat)
    requires i < a.Length
    modifies a
    ensures a[..i + 1] == Placed(old(a[..i]), old(a[i]))
    ensures a[i + 1..] == old(a[i + 1..])
  {
    ghost var was := a[..];
    var b := a[i];
    var j := i;
    while j > 0 && ComparePreference(a[j - 1], b) == Greater
      invariant 0 <= j <= i
      invariant forall k | 0 <= k < j :: a[k] == was[k]
      invariant a[j] == b
      invariant forall k | j < k <= i :: a[k] == was[k - 1]
      invariant forall k | i < k < a.Length :: a[k] == was[k]
      invariant Placed(was[..j], b) + was[j..i] == Placed(was[..i], b)
    {
      PlacedBefore(was, j, i, b);
      a[j - 1], a[j] := a[j], a[j - 1];
      j := j - 1;
    }
    PlacedHere(was[..j], b);
    assert a[..i + 1] == was[..j] + [b] + was[j..i];
  }
}
