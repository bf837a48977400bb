/** The version comparison is a total order that refines SemVer precedence, and where it stops being one. */
module SemVerTheorems {
  import opened Lists
  import opened Orders
  import opened SemVer

  // ---------------------------------------------------------------------
  // Total orders, and how they combine
  // ---------------------------------------------------------------------

  ghost predicate Separates(cmp: Comparator) { forall a, b :: cmp(a, b) == Equal <==> a == b }

  ghost predicate Flips(cmp: Comparator) { forall a, b :: cmp(b, a) == Flip(cmp(a, b)) }

  ghost predicate Transitive(cmp: Comparator) {
    forall a, b, c :: cmp(a, b) == Less && cmp(b, c) == Less ==> cmp(a, c) == Less
  }

  ghost predicate TotalOrder(cmp: Comparator) { Separates(cmp) && Flips(cmp) && Transitive(cmp) }

  lemma {:induction false} IdsEqual(cmp: Comparator, xs: seq<string>, ys: seq<string>)
    requires Separates(cmp)
    ensures CompareIds(cmp, xs, ys) == Equal <==> xs == ys
  {
    if xs != [] && ys != [] {
      IdsEqual(cmp, xs[1..], ys[1..]);
      if xs[0] == ys[0] && xs[1..] == ys[1..] {
        assert xs == [xs[0]] + xs[1..] == ys;
      }
    }
  }

  lemma {:induction false} IdsFlip(cmp: Comparator, xs: seq<string>, ys: seq<string>)
    requires Flips(cmp)
    ensures CompareIds(cmp, ys, xs) == Flip(CompareIds(cmp, xs, ys))
  {
    if xs != [] && ys != [] {
      IdsFlip(cmp, xs[1..], ys[1..]);
      assert cmp(ys[0], xs[0]) == Flip(cmp(xs[0], ys[0]));
    }
  }

  lemma {:induction false} IdsTransitive(cmp: Comparator, xs: seq<string>, ys: seq<string>, zs: seq<string>)
    requires TotalOrder(cmp)
    requires CompareIds(cmp, xs, ys) == Less && CompareIds(cmp, ys, zs) == Less
    ensures CompareIds(cmp, xs, zs) == Less
  {
    if xs != [] {
      var x, y, z := xs[0], ys[0], zs[0];
      assert cmp(x, y) == Equal <==> x == y;
      assert cmp(y, z) == Equal <==> y == z;
      if x == y && y == z {
        assert cmp(x, z) == Equal;
        IdsTransitive(cmp, xs[1..], ys[1..], zs[1..]);
      } else if x != y && y != z {
        assert cmp(x, z) == Less;
      }
    }
  }

  lemma PartsOrder(cmp: Comparator, missing: Ordering, a: Option<string>, b: Option<string>, c: Option<string>)
    requires TotalOrder(cmp) && missing != Equal
    ensures CompareParts(cmp, missing, a, b) == Equal <==> a == b
    ensures CompareParts(cmp, missing, b, a) == Flip(CompareParts(cmp, missing, a, b))
    ensures CompareParts(cmp, missing, a, b) == Less && CompareParts(cmp, missing, b, c) == Less
            ==> CompareParts(cmp, missing, a, c) == Less
  {
    hide Split, CompareIds, TotalOrder;
    assert Separates(cmp) && Flips(cmp) by { TotalOrderParts(cmp); }
    if a.Some? && b.Some? {
      var xs, ys := Split(a.value, '.'), Split(b.value, '.');
      IdsEqual(cmp, xs, ys);
      IdsFlip(cmp, xs, ys);
      if xs == ys { SplitInjective(a.value, b.value, '.'); }
      if c.Some? && CompareIds(cmp, xs, ys) == Less && CompareIds(cmp, ys, Split(c.value, '.')) == Less {
        IdsTransitive(cmp, xs, ys, Split(c.value, '.'));
      }
    }
  }

  lemma TotalOrderParts(cmp: Comparator)
    requires TotalOrder(cmp)
    ensures Separates(cmp) && Flips(cmp)
  {
  }

  // ---------------------------------------------------------------------
  // The two identifier orders
  // ---------------------------------------------------------------------

  lemma NumeralsOrder(a: string, b: string, c: string)
    ensures CompareNumerals(a, b) == Equal <==> a == b
    ensures CompareNumerals(b, a) == Flip(CompareNumerals(a, b))
    ensures CompareNumerals(a, b) == Less && CompareNumerals(b, c) == Less ==> CompareNumerals(a, c) == Less
  {
    hide Lex;
    LexEqual(a, b);
    LexFlips(a, b);
    if Lex(a, b) == Less && Lex(b, c) == Less { LexTransitive(a, b, c); }
  }

  lemma LexOrder(a: string, b: string, c: string)
    ensures Lex(a, b) == Equal <==> a == b
    ensures Lex(b, a) == Flip(Lex(a, b))
    ensures Lex(a, b) == Less && Lex(b, c) == Less ==> Lex(a, c) == Less
  {
    hide Lex;
    LexEqual(a, b);
    LexFlips(a, b);
    if Lex(a, b) == Less && Lex(b, c) == Less { LexTransitive(a, b, c); }
  }

  lemma PreIdIsTotalOrder()
    ensures TotalOrder(ComparePreId)
  {
    hide Lex, CompareNumerals, AllDigits;
    forall a, b, c
      ensures ComparePreId(a, b) == Equal <==> a == b
      ensures ComparePreId(b, a) == Flip(ComparePreId(a, b))
      ensures ComparePreId(a, b) == Less && ComparePreId(b, c) == Less ==> ComparePreId(a, c) == Less
    {
      LexOrder(a, b, c);
      NumeralsOrder(a, b, c);
    }
  }

  lemma {:induction false} TrimZerosRest(a: string, b: string)
    requires TrimZeros(a) == TrimZeros(b) && |a| == |b|
    ensures a == b
  {
    if a != "" {
      TrimZerosLength(a);
      TrimZerosLength(b);
      if a[0] == '0' && b[0] == '0' {
        TrimZerosRest(a[1..], b[1..]);
        assert a == ['0'] + a[1..] == ['0'] + b[1..] == b;
      }
    }
  }

  lemma TrimZerosLength(a: string)
    requires a != ""
    ensures a[0] == '0' ==> |TrimZeros(a)| < |a|
  {
  }

  lemma BuildIdIsTotalOrder()
    ensures TotalOrder(CompareBuildId)
  {
    hide Lex, CompareNumerals, AllDigits, TrimZeros;
    forall a, b, c
      ensures CompareBuildId(a, b) == Equal <==> a == b
      ensures CompareBuildId(b, a) == Flip(CompareBuildId(a, b))
      ensures CompareBuildId(a, b) == Less && CompareBuildId(b, c) == Less ==> CompareBuildId(a, c) == Less
    {
      LexOrder(a, b, c);
      NumeralsOrder(TrimZeros(a), TrimZeros(b), TrimZeros(c));
      NumeralsOrder(TrimZeros(b), TrimZeros(c), TrimZeros(a));
      if TrimZeros(a) == TrimZeros(b) && |a| == |b| { TrimZerosRest(a, b); }
    }
  }

  // ---------------------------------------------------------------------
  // Parsed versions determine their strings
  // ---------------------------------------------------------------------

  function Pow10(n: nat): nat { if n == 0 then 1 else 10 * Pow10(n - 1) }

  lemma {:induction false} Pow10Grows(m: nat, n: nat)
    requires m <= n
    ensures Pow10(m) <= Pow10(n)
  {
    if m < n { Pow10Grows(m, n - 1); }
  }

  lemma {:induction false} ValueBelow(s: string)
    requires AllDigits(s)
    ensures Value(s) < Pow10(|s|)
  {
    if s != "" { ValueBelow(s[..|s| - 1]); }
  }

  lemma {:induction false} ValueAtLeast(s: string)
    requires AllDigits(s) && s != "" && s[0] != '0'
    ensures Value(s) >= Pow10(|s| - 1)
  {
    if |s| > 1 { ValueAtLeast(s[..|s| - 1]); }
  }

  /** Strings of one length: the last character decides only when all before agree. */
  lemma {:induction false} LexSnoc(a: string, b: string)
    requires |a| == |b| > 0
    ensures var n := |a| - 1;
      Lex(a, b) == Then(Lex(a[..n], b[..n]), if a[n] < b[n] then Less else if a[n] == b[n] then Equal else Greater)
  {
    var n := |a| - 1;
    if n > 0 {
      assert a[..n][1..] == a[1..][..n - 1] && b[..n][1..] == b[1..][..n - 1];
      LexSnoc(a[1..], b[1..]);
    }
  }

  lemma {:induction false} SameLengthByValue(a: string, b: string)
    requires AllDigits(a) && AllDigits(b) && |a| == |b|
    ensures Lex(a, b) == CompareInt(Value(a), Value(b))
  {
    if a != "" {
      var n := |a| - 1;
      SameLengthByValue(a[..n], b[..n]);
      LexSnoc(a, b);
      hide Lex;
    }
  }

  /** Without leading zeros, longer is larger, and equal lengths compare digit by digit. */
  lemma NumeralsByValue(a: string, b: string)
    requires IsNumeral(a) && IsNumeral(b)
    ensures CompareNumerals(a, b) == CompareInt(Value(a), Value(b))
  {
    hide Lex;
    if |a| == |b| {
      SameLengthByValue(a, b);
    } else if |a| < |b| {
      ShorterIsSmaller(a, b);
    } else {
      ShorterIsSmaller(b, a);
    }
  }

  lemma ShorterIsSmaller(a: string, b: string)
    requires IsNumeral(a) && IsNumeral(b) && |a| < |b|
    ensures Value(a) < Value(b)
  {
    hide Value;
    ValueBelow(a);
    Pow10Grows(|a|, |b| - 1);
    ValueAtLeast(b);
  }

  lemma NumeralUnique(a: string, b: string)
    requires ParseNumber(a).Some? && ParseNumber(a) == ParseNumber(b)
    ensures a == b
  {
    hide Value;
    NumeralsByValue(a, b);
    NumeralsOrder(a, b, b);
  }

  lemma CutInjective(a: string, b: string, c: char)
    requires Cut(a, c) == Cut(b, c)
    ensures a == b
  {
    hide SplitOnce;
  }

  lemma CoreInjective(a: string, b: string, v: Version, w: Version)
    requires ParseCore(a, v.pre, v.build) == Some(v) && ParseCore(b, w.pre, w.build) == Some(w)
    requires CompareCore(v, w) == Equal
    ensures a == b
  {
    hide Split, ParseNumber;
    var xs, ys := Split(a, '.'), Split(b, '.');
    NumeralUnique(xs[0], ys[0]);
    NumeralUnique(xs[1], ys[1]);
    NumeralUnique(xs[2], ys[2]);
    assert xs == ys;
    SplitInjective(a, b, '.');
  }

  lemma ParseInjective(a: string, b: string)
    requires Parse(a).Some? && Parse(b).Some?
    requires CompareCore(Parse(a).value, Parse(b).value) == Equal
    requires Parse(a).value.pre == Parse(b).value.pre && Parse(a).value.build == Parse(b).value.build
    ensures a == b
  {
    hide Cut, ParseCore, ValidIdentifiers, CompareCore;
    ParsedParts(a);
    ParsedParts(b);
    CoreInjective(Cut(Cut(a, '+').0, '-').0, Cut(Cut(b, '+').0, '-').0, Parse(a).value, Parse(b).value);
    CutInjective(Cut(a, '+').0, Cut(b, '+').0, '-');
    CutInjective(a, b, '+');
  }

  lemma ParsedParts(s: string)
    requires Parse(s).Some?
    ensures var v := Parse(s).value; var (rest, build) := Cut(s, '+'); var (core, pre) := Cut(rest, '-');
      v.pre == pre && v.build == build && ParseCore(core, v.pre, v.build) == Some(v)
  {
    hide Cut, ValidIdentifiers, ParseNumber, Split;
  }

  // ---------------------------------------------------------------------
  // The comparison on versions that parse
  // ---------------------------------------------------------------------

  lemma ParsedOrder(a: Version, b: Version, c: Version)
    ensures CompareParsed(a, b) == Equal <==>
            CompareCore(a, b) == Equal && a.pre == b.pre && a.build == b.build
    ensures CompareParsed(b, a) == Flip(CompareParsed(a, b))
    ensures CompareParsed(a, b) == Less && CompareParsed(b, c) == Less ==> CompareParsed(a, c) == Less
  {
    hide CompareParts;
    PreIdIsTotalOrder();
    BuildIdIsTotalOrder();
    PartsOrder(ComparePreId, Greater, a.pre, b.pre, c.pre);
    PartsOrder(ComparePreId, Greater, b.pre, c.pre, a.pre);
    PartsOrder(CompareBuildId, Less, a.build, b.build, c.build);
    PartsOrder(CompareBuildId, Less, b.build, c.build, a.build);
  }

  predicate IsSemVer(s: string) { Parse(s).Some? }

  /** On strings that parse, equality of versions is equality of strings. */
  lemma EqualMeansIdentical(a: string, b: string)
    requires IsSemVer(a) && IsSemVer(b)
    ensures Compare(a, b) == Equal <==> a == b
  {
    hide Parse, CompareParsed, CompareCore;
    ParsedOrder(Parse(a).value, Parse(b).value, Parse(b).value);
    if Compare(a, b) == Equal { ParseInjective(a, b); }
    if a == b { CoreReflexive(Parse(a).value); }
  }

  lemma CoreReflexive(v: Version)
    ensures CompareCore(v, v) == Equal
  {
  }

  /** On strings that parse, the comparison is a total order. */
  lemma SemVerOrder(a: string, b: string, c: string)
    requires IsSemVer(a) && IsSemVer(b) && IsSemVer(c)
    ensures Compare(b, a) == Flip(Compare(a, b))
    ensures Compare(a, b) == Less && Compare(b, c) == Less ==> Compare(a, c) == Less
  {
    hide Parse, CompareParsed;
    ParsedOrder(Parse(a).value, Parse(b).value, Parse(c).value);
  }

  // ---------------------------------------------------------------------
  // Precedence, as section 11 of Semantic Versioning 2.0.0 defines it
  // ---------------------------------------------------------------------

  /** Numeric identifiers compare as numbers and come before the others, which compare as text. */
  function PrecedenceId(a: string, b: string): Ordering {
    if AllDigits(a) && AllDigits(b) then CompareInt(Value(a), Value(b))
    else if AllDigits(a) then Less
    else if AllDigits(b) then Greater
    else Lex(a, b)
  }

  function PrecedenceIds(xs: seq<string>, ys: seq<string>): Ordering {
    if xs == [] && ys == [] then Equal
    else if xs == [] then Less
    else if ys == [] then Greater
    else Then(PrecedenceId(xs[0], ys[0]), PrecedenceIds(xs[1..], ys[1..]))
  }

  /** A version without a pre-release comes after those with one; build metadata is ignored. */
  function Precedence(a: Version, b: Version): Ordering {
    Then(CompareInt(a.major, b.major),
    Then(CompareInt(a.minor, b.minor),
    Then(CompareInt(a.patch, b.patch),
         if a.pre.None? && b.pre.None? then Equal
         else if a.pre.None? then Greater
         else if b.pre.None? then Less
         else PrecedenceIds(Split(a.pre.value, '.'), Split(b.pre.value, '.')))))
  }

  lemma PreIdByValue(a: string, b: string)
    requires ValidIdentifier(a, true) && ValidIdentifier(b, true)
    ensures ComparePreId(a, b) == PrecedenceId(a, b)
  {
    hide Value, Lex;
    if AllDigits(a) && AllDigits(b) { NumeralsByValue(a, b); }
  }

  lemma {:induction false} PreIdsByValue(xs: seq<string>, ys: seq<string>)
    requires forall i :: 0 <= i < |xs| ==> ValidIdentifier(xs[i], true)
    requires forall i :: 0 <= i < |ys| ==> ValidIdentifier(ys[i], true)
    ensures CompareIds(ComparePreId, xs, ys) == PrecedenceIds(xs, ys)
  {
    hide ComparePreId, PrecedenceId, ValidIdentifier;
    if xs != [] && ys != [] {
      PreIdByValue(xs[0], ys[0]);
      PreIdsByValue(xs[1..], ys[1..]);
    }
  }

  /** Build identifiers too, but equal numbers by how many digits spell them. */
  function BuildPrecedenceId(a: string, b: string): Ordering {
    if AllDigits(a) && AllDigits(b) then Then(CompareInt(Value(a), Value(b)), CompareInt(|a|, |b|))
    else PrecedenceId(a, b)
  }

  function BuildPrecedenceIds(xs: seq<string>, ys: seq<string>): Ordering {
    if xs == [] && ys == [] then Equal
    else if xs == [] then Less
    else if ys == [] then Greater
    else Then(BuildPrecedenceId(xs[0], ys[0]), BuildPrecedenceIds(xs[1..], ys[1..]))
  }

  /** A version without build metadata comes before those with some. */
  function BuildPrecedence(a: Option<string>, b: Option<string>): Ordering {
    if a.None? && b.None? then Equal
    else if a.None? then Less
    else if b.None? then Greater
    else BuildPrecedenceIds(Split(a.value, '.'), Split(b.value, '.'))
  }

  lemma {:induction false} TrimmedValue(s: string)
    requires AllDigits(s)
    ensures AllDigits(TrimZeros(s)) && Value(TrimZeros(s)) == Value(s)
    ensures TrimZeros(s) != "" ==> TrimZeros(s)[0] != '0'
  {
    if s != "" && s[0] == '0' {
      ValueWithoutZero(s);
      TrimmedValue(s[1..]);
    }
  }

  lemma {:induction false} ValueWithoutZero(s: string)
    requires AllDigits(s) && s != "" && s[0] == '0'
    ensures Value(s[1..]) == Value(s)
  {
    var n := |s| - 1;
    if n > 0 {
      ValueWithoutZero(s[..n]);
      assert s[1..][..n - 1] == s[..n][1..];
    } else {
      assert s[..0] == "" && s[1..] == "";
    }
  }

  /** Digits without leading zeros, possibly none at all. */
  lemma TrimmedByValue(a: string, b: string)
    requires AllDigits(a) && AllDigits(b) && (a != "" ==> a[0] != '0') && (b != "" ==> b[0] != '0')
    ensures CompareNumerals(a, b) == CompareInt(Value(a), Value(b))
  {
    hide Lex, Value;
    if |a| == |b| {
      SameLengthByValue(a, b);
    } else if |a| < |b| {
      ValueBelow(a);
      Pow10Grows(|a|, |b| - 1);
      ValueAtLeast(b);
    } else {
      ValueBelow(b);
      Pow10Grows(|b|, |a| - 1);
      ValueAtLeast(a);
    }
  }

  lemma BuildIdByValue(a: string, b: string)
    ensures CompareBuildId(a, b) == BuildPrecedenceId(a, b)
  {
    hide Value, Lex, TrimZeros, CompareNumerals;
    if AllDigits(a) && AllDigits(b) {
      TrimmedValue(a);
      TrimmedValue(b);
      TrimmedByValue(TrimZeros(a), TrimZeros(b));
    }
  }

  lemma {:induction false} BuildIdsByValue(xs: seq<string>, ys: seq<string>)
    ensures CompareIds(CompareBuildId, xs, ys) == BuildPrecedenceIds(xs, ys)
  {
    hide CompareBuildId, BuildPrecedenceId;
    if xs != [] && ys != [] {
      BuildIdByValue(xs[0], ys[0]);
      BuildIdsByValue(xs[1..], ys[1..]);
    }
  }

  lemma BuildByValue(a: Option<string>, b: Option<string>)
    ensures CompareBuild(a, b) == BuildPrecedence(a, b)
  {
    hide Split, CompareIds, BuildPrecedenceIds;
    if a.Some? && b.Some? { BuildIdsByValue(Split(a.value, '.'), Split(b.value, '.')); }
  }

  lemma ParsedPreIsValid(s: string)
    requires IsSemVer(s) && Parse(s).value.pre.Some?
    ensures ValidIdentifiers(Parse(s).value.pre.value, true)
  {
    hide Cut, ValidIdentifiers, ParseNumber, Split;
  }

  /** The comparison is SemVer precedence, with ties broken by the numbers and texts of the build metadata. */
  lemma RefinesPrecedence(a: string, b: string)
    requires IsSemVer(a) && IsSemVer(b)
    ensures var v, w := Parse(a).value, Parse(b).value;
      Compare(a, b) == Then(Precedence(v, w), BuildPrecedence(v.build, w.build))
  {
    hide Parse, Split, CompareIds, PrecedenceIds, CompareBuild, BuildPrecedence;
    var v, w := Parse(a).value, Parse(b).value;
    BuildByValue(v.build, w.build);
    if v.pre.Some? && w.pre.Some? {
      ParsedPreIsValid(a);
      ParsedPreIsValid(b);
      PreIdsByValue(Split(v.pre.value, '.'), Split(w.pre.value, '.'));
    }
  }

  // ---------------------------------------------------------------------
  // Mixed sets
  // ---------------------------------------------------------------------

  ghost predicate TransitiveOn(versions: set<string>) {
    forall a, b, c :: a in versions && b in versions && c in versions ==>
      (Compare(a, b) == Less && Compare(b, c) == Less ==> Compare(a, c) == Less)
  }

  /** A string that does not parse lies, as text, between two versions the other way round. */
  ghost predicate Straddles(a: string, x: string, b: string) {
    IsSemVer(a) && IsSemVer(b) && !IsSemVer(x)
    && Lex(a, x) == Less && Lex(x, b) == Less && Compare(a, b) != Less
  }

  ghost predicate NoStraddling(versions: set<string>) {
    forall a, x, b :: a in versions && x in versions && b in versions ==> !Straddles(a, x, b)
  }

  /** On any strings the comparison separates and flips. */
  lemma CompareSeparates(a: string, b: string)
    ensures Compare(a, b) == Equal <==> a == b
    ensures Compare(b, a) == Flip(Compare(a, b))
  {
    hide Parse, CompareParsed, Lex;
    LexOrder(a, b, b);
    if IsSemVer(a) && IsSemVer(b) {
      EqualMeansIdentical(a, b);
      SemVerOrder(a, b, b);
    }
  }

  lemma TransitiveAt(versions: set<string>, a: string, b: string, c: string)
    requires NoStraddling(versions) && a in versions && b in versions && c in versions
    requires Compare(a, b) == Less && Compare(b, c) == Less
    ensures Compare(a, c) == Less
  {
    hide Parse, CompareParsed, Lex;
    CompareSeparates(a, b);
    CompareSeparates(b, c);
    CompareSeparates(a, c);
    LexOrder(a, b, c);
    LexOrder(b, c, a);
    LexOrder(c, a, b);
    if IsSemVer(a) && IsSemVer(b) && IsSemVer(c) {
      SemVerOrder(a, b, c);
    } else {
      assert !Straddles(a, b, c) && !Straddles(b, c, a) && !Straddles(c, a, b);
    }
  }

  /** The comparison orders a set of versions exactly when nothing in it straddles. */
  lemma OrderedIffNoStraddling(versions: set<string>)
    ensures TransitiveOn(versions) <==> NoStraddling(versions)
  {
    hide Parse, CompareParsed, Lex;
    if NoStraddling(versions) {
      forall a, b, c | a in versions && b in versions && c in versions
        && Compare(a, b) == Less && Compare(b, c) == Less
        ensures Compare(a, c) == Less
      {
        TransitiveAt(versions, a, b, c);
      }
    }
  }

  /** In particular when all of it parses, or none of it. */
  lemma UniformSetsAreOrdered(versions: set<string>)
    requires (forall v :: v in versions ==> IsSemVer(v)) || (forall v :: v in versions ==> !IsSemVer(v))
    ensures TransitiveOn(versions)
  {
    hide Parse, CompareParsed, Lex;
    OrderedIffNoStraddling(versions);
  }

  lemma {:induction false} SplitOnceAt(a: string, b: string, c: char)
    requires c !in a
    ensures SplitOnce(a + [c] + b, c) == Some((a, b))
  {
    var s := a + [c] + b;
    if a == "" {
      assert s[1..] == b;
    } else {
      assert s[1..] == a[1..] + [c] + b;
      SplitOnceAt(a[1..], b, c);
      assert s[0] == a[0] && [a[0]] + a[1..] == a;
    }
  }

  lemma SplitNone(a: string, c: char)
    requires c !in a
    ensures SplitOnce(a, c) == None && Split(a, c) == [a] && Cut(a, c) == (a, None)
  {
  }

  lemma SplitFirst(a: string, b: string)
    requires '.' !in a
    ensures Split(a + "." + b, '.') == [a] + Split(b, '.')
  {
    SplitOnceAt(a, b, '.');
  }

  lemma CoreParses(a: string, b: string, c: string, pre: Option<string>, build: Option<string>)
    requires IsNumeral(a) && IsNumeral(b) && IsNumeral(c)
    requires Value(a) <= U64_MAX && Value(b) <= U64_MAX && Value(c) <= U64_MAX
    ensures var s := a + "." + (b + "." + c);
      && '+' !in s && '-' !in s
      && ParseCore(s, pre, build) == Some(Version(Value(a), Value(b), Value(c), pre, build))
  {
    hide Split, SplitOnce, Value;
    var s := a + "." + (b + "." + c);
    forall i | 0 <= i < |s| ensures s[i] != '+' && s[i] != '-' {
      assert s[i] == '.' || s[i] in a || s[i] in b || s[i] in c;
    }
    SplitNone(c, '.');
    SplitFirst(b, c);
    SplitFirst(a, b + "." + c);
    assert Split(s, '.') == [a, b, c];
  }

  // ---------------------------------------------------------------------
  // Exactly which strings parse
  // ---------------------------------------------------------------------

  lemma {:induction false} DecimalIsNumeral(n: nat)
    ensures IsNumeral(Decimal(n)) && Value(Decimal(n)) == n
    ensures n > 0 ==> Decimal(n)[0] != '0'
  {
    var s := Decimal(n);
    if n < 10 {
      assert s[..0] == "" && Value(s[..0]) == 0;
    } else {
      DecimalIsNumeral(n / 10);
      assert s[..|s| - 1] == Decimal(n / 10);
    }
  }

  /** A numeral is the decimal of its value. */
  lemma NumeralIsDecimal(s: string)
    requires IsNumeral(s)
    ensures Decimal(Value(s)) == s
  {
    hide Value, Decimal;
    DecimalIsNumeral(Value(s));
    NumeralsByValue(s, Decimal(Value(s)));
    NumeralsOrder(s, Decimal(Value(s)), s);
  }

  /** Not empty, and only letters, digits and hyphens. */
  ghost predicate IsIdentifier(id: string) {
    id != "" && forall c :: c in id ==> 'a' <= c <= 'z' || 'A' <= c <= 'Z' || '0' <= c <= '9' || c == '-'
  }

  /** A numeric one is a number in decimal. */
  ghost predicate IsPreIdentifier(id: string) {
    IsIdentifier(id) && ((forall c :: c in id ==> '0' <= c <= '9') ==> exists n :: id == Decimal(n))
  }

  ghost predicate WellFormed(v: Version) {
    && v.major < 0x1_0000_0000_0000_0000 && v.minor < 0x1_0000_0000_0000_0000 && v.patch < 0x1_0000_0000_0000_0000
    && (v.pre.Some? ==> forall id :: id in Split(v.pre.value, '.') ==> IsPreIdentifier(id))
    && (v.build.Some? ==> forall id :: id in Split(v.build.value, '.') ==> IsIdentifier(id))
  }

  lemma DigitsAre(id: string)
    ensures AllDigits(id) <==> forall c :: c in id ==> '0' <= c <= '9'
  {
    if forall c :: c in id ==> '0' <= c <= '9' { assert forall i :: 0 <= i < |id| ==> id[i] in id; }
  }

  lemma IdentifierIff(id: string)
    ensures ValidIdentifier(id, false) <==> IsIdentifier(id)
  {
    if IsIdentifier(id) { assert forall i :: 0 <= i < |id| ==> id[i] in id; }
  }

  lemma PreIdentifierIff(id: string)
    ensures ValidIdentifier(id, true) <==> IsPreIdentifier(id)
  {
    hide Decimal, Value;
    IdentifierIff(id);
    DigitsAre(id);
    hide IsIdentifier, AllDigits;
    if id != "" && AllDigits(id) {
      if IsNumeral(id) { NumeralIsDecimal(id); }
      if n :| id == Decimal(n) { DecimalIsNumeral(n); }
    }
  }

  lemma IdentifiersIff(value: string)
    ensures ValidIdentifiers(value, false) <==> forall id :: id in Split(value, '.') ==> IsIdentifier(id)
    ensures ValidIdentifiers(value, true) <==> forall id :: id in Split(value, '.') ==> IsPreIdentifier(id)
  {
    hide Split, ValidIdentifier, IsIdentifier, IsPreIdentifier;
    var ids := Split(value, '.');
    forall id ensures ValidIdentifier(id, false) <==> IsIdentifier(id) { IdentifierIff(id); }
    forall id ensures ValidIdentifier(id, true) <==> IsPreIdentifier(id) { PreIdentifierIff(id); }
    assert forall i :: 0 <= i < |ids| ==> ids[i] in ids;
    if value == "" { NothingIdentified(); }
  }

  lemma NothingIdentified()
    ensures Split("", '.') == [""] && !IsIdentifier("") && !IsPreIdentifier("") && "" in Split("", '.')
  {
  }

  function Suffix(mark: char, part: Option<string>): string {
    match part case Some(text) => [mark] + text case None => ""
  }

  function Core(v: Version): string { Decimal(v.major) + "." + (Decimal(v.minor) + "." + Decimal(v.patch)) }

  /** The text of a version: three decimals, then pre-release and build if present. */
  function Render(v: Version): string { (Core(v) + Suffix('-', v.pre)) + Suffix('+', v.build) }

  /** Every character of a split string is the separator or in one of the parts. */
  lemma {:induction false} SplitChars(s: string, c: char, x: char)
    requires x in s && x != c
    ensures exists i :: 0 <= i < |Split(s, c)| && x in Split(s, c)[i]
    decreases |s|
  {
    match SplitOnce(s, c) {
      case None => { assert x in Split(s, c)[0]; }
      case Some(ab) => {
        if x in ab.0 {
          assert x in Split(s, c)[0];
        } else {
          assert x in ab.1;
          SplitChars(ab.1, c, x);
          var i :| 0 <= i < |Split(ab.1, c)| && x in Split(ab.1, c)[i];
          assert Split(s, c)[i + 1] == Split(ab.1, c)[i];
        }
      }
    }
  }

  lemma NoPlus(value: string, rejectLeadingZero: bool)
    requires ValidIdentifiers(value, rejectLeadingZero)
    ensures '+' !in value
  {
    hide Split;
    if '+' in value {
      SplitChars(value, '.', '+');
      assert false;
    }
  }

  lemma CutSuffix(head: string, c: char, part: Option<string>)
    requires c !in head
    ensures Cut(head + Suffix(c, part), c) == (head, part)
  {
    hide SplitOnce, Split;
    match part {
      case None => { assert head + Suffix(c, part) == head; SplitNone(head, c); }
      case Some(text) => {
        assert head + Suffix(c, part) == head + [c] + text;
        SplitOnceAt(head, text, c);
      }
    }
  }

  lemma SuffixCut(s: string, c: char)
    ensures Cut(s, c).0 + Suffix(c, Cut(s, c).1) == s && c !in Cut(s, c).0
  {
    hide SplitOnce;
    var r := SplitOnce(s, c);
    if r.Some? { assert s == r.value.0 + ([c] + r.value.1); }
  }

  /** Every well-formed version parses back from its text. */
  lemma ParseRender(v: Version)
    requires WellFormed(v)
    ensures Parse(Render(v)) == Some(v)
  {
    hide Decimal, Value, Split, Cut, ParseCore, Suffix, ValidIdentifiers, IsIdentifier, IsPreIdentifier;
    if v.pre.Some? { IdentifiersIff(v.pre.value); }
    if v.build.Some? { IdentifiersIff(v.build.value); }
    DecimalIsNumeral(v.major);
    DecimalIsNumeral(v.minor);
    DecimalIsNumeral(v.patch);
    CoreParses(Decimal(v.major), Decimal(v.minor), Decimal(v.patch), v.pre, v.build);
    if v.pre.Some? { NoPlus(v.pre.value, true); }
    if v.build.Some? { NoPlus(v.build.value, false); }
    PlusFree(Core(v), v.pre);
    CutSuffix(Core(v) + Suffix('-', v.pre), '+', v.build);
    CutSuffix(Core(v), '-', v.pre);
  }

  lemma PlusFree(core: string, pre: Option<string>)
    requires '+' !in core && (pre.Some? ==> '+' !in pre.value)
    ensures '+' !in core + Suffix('-', pre)
  {
  }

  /** A string that parses is the text of what it parses to, and that is well formed. */
  lemma RenderParse(s: string)
    requires Parse(s).Some?
    ensures WellFormed(Parse(s).value) && Render(Parse(s).value) == s
  {
    hide Decimal, Value, Split, Cut, Suffix, ValidIdentifiers, IsIdentifier, IsPreIdentifier;
    var v := Parse(s).value;
    if v.pre.Some? { IdentifiersIff(v.pre.value); }
    if v.build.Some? { IdentifiersIff(v.build.value); }
    var (rest, build) := Cut(s, '+');
    var (core, pre) := Cut(rest, '-');
    SuffixCut(s, '+');
    SuffixCut(rest, '-');
    var numbers := Split(core, '.');
    JoinSplit(core, '.');
    NumeralIsDecimal(numbers[0]);
    NumeralIsDecimal(numbers[1]);
    NumeralIsDecimal(numbers[2]);
    JoinThree(numbers, '.');
  }

  lemma JoinThree(parts: seq<string>, c: char)
    requires |parts| == 3
    ensures Join(parts, c) == parts[0] + [c] + (parts[1] + [c] + parts[2])
  {
    assert parts[1..][1..] == [parts[2]];
    assert Join([parts[2]], c) == parts[2];
    assert Join(parts[1..], c) == parts[1] + [c] + parts[2];
  }

  /** Parsing accepts exactly the texts of well-formed versions, and returns that version. */
  lemma ParseExactly(s: string, v: Version)
    ensures Parse(s) == Some(v) <==> WellFormed(v) && s == Render(v)
  {
    hide Parse, Render, WellFormed;
    if WellFormed(v) { ParseRender(v); }
    if Parse(s) == Some(v) { RenderParse(s); }
  }

  // ---------------------------------------------------------------------
  // A cycle
  // ---------------------------------------------------------------------

  lemma ParseTriple(a: string, b: string, c: string)
    requires IsNumeral(a) && IsNumeral(b) && IsNumeral(c)
    requires Value(a) <= U64_MAX && Value(b) <= U64_MAX && Value(c) <= U64_MAX
    ensures Parse(a + "." + (b + "." + c)) == Some(Version(Value(a), Value(b), Value(c), None, None))
  {
    hide Split, SplitOnce, Value, Cut, ParseCore;
    CoreParses(a, b, c, None, None);
    SplitNone(a + "." + (b + "." + c), '+');
    SplitNone(a + "." + (b + "." + c), '-');
  }

  lemma {:induction false} LexPrefix(p: string, a: string, b: string)
    ensures Lex(p + a, p + b) == Lex(a, b)
  {
    if p == "" {
      assert p + a == a && p + b == b;
    } else {
      assert (p + a)[1..] == p[1..] + a && (p + b)[1..] == p[1..] + b;
      LexPrefix(p[1..], a, b);
    }
  }

  /** Three cached versions that the comparison sends round in a circle. */
  lemma MixedVersionsCycle()
    ensures Compare("1.9.0", "1.10.0") == Less && Compare("1.10.0", "1.5") == Less && Compare("1.5", "1.9.0") == Less
    ensures Straddles("1.10.0", "1.5", "1.9.0")
  {
    hide Split, SplitOnce, Lex;
    assert IsNumeral("1") && IsNumeral("9") && IsNumeral("0") && IsNumeral("10");
    assert Value("1") == 1 && Value("9") == 9 && Value("0") == 0;
    assert "10"[..1] == "1" && Value("10") == 10;
    assert "1.9.0" == "1" + "." + ("9" + "." + "0") && "1.10.0" == "1" + "." + ("10" + "." + "0");
    ParseTriple("1", "9", "0");
    ParseTriple("1", "10", "0");
    hide Value;
    assert Parse("1.5") == None by {
      assert "1.5" == "1" + "." + "5";
      SplitNone("1.5", '+');
      SplitNone("1.5", '-');
      SplitNone("5", '.');
      SplitFirst("1", "5");
    }
    hide Parse;
    assert "1.10.0" == "1." + "10.0" && "1.5" == "1." + "5" && "1.9.0" == "1." + "9.0";
    LexPrefix("1.", "10.0", "5");
    LexPrefix("1.", "5", "9.0");
    FirstDecides("10.0", "5");
    FirstDecides("5", "9.0");
  }

  lemma FirstDecides(a: string, b: string)
    requires a != "" && b != "" && a[0] < b[0]
    ensures Lex(a, b) == Less
  {
  }

  // ---------------------------------------------------------------------
  // The active version
  // ---------------------------------------------------------------------

  /** A permutation in which no neighbour pair is out of order: all that sorting promises. */
  ghost predicate SortedPermutation(versions: seq<string>, sorted: seq<string>) {
    && multiset(versions) == multiset(sorted)
    && forall i :: 0 <= i < |sorted| - 1 ==> Compare(sorted[i], sorted[i + 1]) != Greater
  }

  /** `local` wins, otherwise the last after sorting. */
  ghost predicate IsActive(versions: seq<string>, active: Option<string>) {
    if "local" in versions then active == Some("local")
    else exists sorted :: SortedPermutation(versions, sorted)
                          && active == if sorted == [] then None else Some(sorted[|sorted| - 1])
  }

  lemma {:induction false} LastIsGreatest(versions: set<string>, sorted: seq<string>, i: nat)
    requires NoStraddling(versions) && forall v :: v in sorted ==> v in versions
    requires forall k :: 0 <= k < |sorted| - 1 ==> Compare(sorted[k], sorted[k + 1]) != Greater
    requires i < |sorted|
    ensures Compare(sorted[i], sorted[|sorted| - 1]) != Greater
    decreases |sorted| - i
  {
    hide Compare, NoStraddling;
    var last := sorted[|sorted| - 1];
    CompareSeparates(last, last);
    if i < |sorted| - 1 {
      LastIsGreatest(versions, sorted, i + 1);
      CompareSeparates(sorted[i], sorted[i + 1]);
      CompareSeparates(sorted[i + 1], last);
      if Compare(sorted[i], sorted[i + 1]) == Less && Compare(sorted[i + 1], last) == Less {
        TransitiveAt(versions, sorted[i], sorted[i + 1], last);
      }
    }
  }

  /** Without `local`, whatever the sort does with the rest, the active version is the one greatest. */
  lemma ActiveIsUniqueMaximum(versions: seq<string>, active: Option<string>, v: string)
    requires NoStraddling((set x | x in versions)) && "local" !in versions
    requires IsActive(versions, active) && v in versions
    ensures active.Some? && active.value in versions
    ensures v == active.value || Compare(v, active.value) == Less
  {
    hide Compare, NoStraddling;
    var sorted :| SortedPermutation(versions, sorted)
                  && active == if sorted == [] then None else Some(sorted[|sorted| - 1]);
    SameMembers(versions, sorted);
    var i :| 0 <= i < |sorted| && sorted[i] == v;
    LastIsGreatest((set x | x in versions), sorted, i);
    CompareSeparates(v, active.value);
  }

  lemma SameMembers(a: seq<string>, b: seq<string>)
    requires multiset(a) == multiset(b)
    ensures forall x :: x in a <==> x in b
  {
    forall x ensures x in a <==> x in b {
      assert x in a <==> x in multiset(a);
      assert x in b <==> x in multiset(b);
    }
  }
}
