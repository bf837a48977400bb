/**
 Versions of cached plugins: parsing, the comparison that picks the active one,
 and the precedence of section 11 of Semantic Versioning 2.0.0.
 */
module SemVer {
  import opened Lists
  import opened Orders

  const U64_MAX: nat := 0xFFFF_FFFF_FFFF_FFFF

  predicate IsDigit(c: char) { '0' <= c <= '9' }

  predicate IsAlphanumeric(c: char) { IsDigit(c) || 'a' <= c <= 'z' || 'A' <= c <= 'Z' }

  predicate AllDigits(s: string) { forall i :: 0 <= i < |s| ==> IsDigit(s[i]) }

  // ---------------------------------------------------------------------
  // Splitting
  // ---------------------------------------------------------------------

  function SplitOnce(s: string, c: char): (r: Option<(string, string)>)
    ensures r.Some? ==> s == r.value.0 + [c] + r.value.1 && c !in r.value.0
    ensures r.None? <==> c !in s
  {
    if s == "" then None
    else if s[0] == c then (assert s == [] + [c] + s[1..]; Some(([], s[1..])))
    else
      match SplitOnce(s[1..], c)
      case None => None
      case Some((a, b)) => assert s == ([s[0]] + a) + [c] + b; Some(([s[0]] + a, b))
  }

  function Split(s: string, c: char): (r: seq<string>)
    ensures r != []
    decreases |s|
  {
    match SplitOnce(s, c)
    case None => [s]
    case Some((a, b)) => [a] + Split(b, c)
  }

  function Join(parts: seq<string>, c: char): string {
    if parts == [] then "" else if |parts| == 1 then parts[0] else parts[0] + [c] + Join(parts[1..], c)
  }

  lemma {:induction false} JoinSplit(s: string, c: char)
    ensures Join(Split(s, c), c) == s
    decreases |s|
  {
    match SplitOnce(s, c) {
      case None =>
      case Some(ab) => {
        JoinSplit(ab.1, c);
        assert Split(s, c)[1..] == Split(ab.1, c);
      }
    }
  }

  lemma SplitInjective(a: string, b: string, c: char)
    requires Split(a, c) == Split(b, c)
    ensures a == b
  {
    JoinSplit(a, c);
    JoinSplit(b, c);
  }

  // ---------------------------------------------------------------------
  // Parsing
  // ---------------------------------------------------------------------

  datatype Version = Version(major: nat, minor: nat, patch: nat, pre: Option<string>, build: Option<string>)

  function Digit(c: char): nat
    requires IsDigit(c)
  {
    c as int - '0' as int
  }

  /** The number a string of digits spells. */
  function Value(s: string): nat
    requires AllDigits(s)
  {
    if s == "" then 0 else 10 * Value(s[..|s| - 1]) + Digit(s[|s| - 1])
  }

  /** A number in decimal, without leading zeros. */
  function Decimal(n: nat): string {
    if n < 10 then [(('0' as int) + n) as char] else Decimal(n / 10) + [(('0' as int) + n % 10) as char]
  }

  /** Digits without a superfluous leading zero. */
  predicate IsNumeral(s: string) { s != "" && AllDigits(s) && (s == "0" || s[0] != '0') }

  function ParseNumber(s: string): Option<nat> {
    if IsNumeral(s) && Value(s) <= U64_MAX then Some(Value(s)) else None
  }

  predicate ValidIdentifier(id: string, rejectLeadingZero: bool) {
    && id != ""
    && (forall i :: 0 <= i < |id| ==> IsAlphanumeric(id[i]) || id[i] == '-')
    && !(rejectLeadingZero && |id| > 1 && AllDigits(id) && id[0] == '0')
  }

  predicate ValidIdentifiers(value: string, rejectLeadingZero: bool) {
    value != "" && forall i :: 0 <= i < |Split(value, '.')| ==> ValidIdentifier(Split(value, '.')[i], rejectLeadingZero)
  }

  function ParseCore(core: string, pre: Option<string>, build: Option<string>): Option<Version> {
    var numbers := Split(core, '.');
    if |numbers| != 3 then None
    else
      var major, minor, patch := ParseNumber(numbers[0]), ParseNumber(numbers[1]), ParseNumber(numbers[2]);
      if major.None? || minor.None? || patch.None? then None
      else Some(Version(major.value, minor.value, patch.value, pre, build))
  }

  /** Everything before the first separator, and what follows it if there is one. */
  function Cut(s: string, c: char): (string, Option<string>) {
    match SplitOnce(s, c) case Some((a, b)) => (a, Some(b)) case None => (s, None)
  }

  function Parse(version: string): Option<Version> {
    var (withoutBuild, build) := Cut(version, '+');
    var (core, pre) := Cut(withoutBuild, '-');
    if build.Some? && ('+' in build.value || !ValidIdentifiers(build.value, false)) then None
    else if pre.Some? && !ValidIdentifiers(pre.value, true) then None
    else ParseCore(core, pre, build)
  }

  // ---------------------------------------------------------------------
  // Comparing
  // ---------------------------------------------------------------------

  function Then(first: Ordering, second: Ordering): Ordering { if first == Equal then second else first }

  function CompareNumerals(a: string, b: string): Ordering { Then(CompareInt(|a|, |b|), Lex(a, b)) }

  function ComparePreId(a: string, b: string): Ordering {
    if AllDigits(a) && !AllDigits(b) then Less
    else if !AllDigits(a) && AllDigits(b) then Greater
    else if AllDigits(a) then CompareNumerals(a, b)
    else Lex(a, b)
  }

  function TrimZeros(s: string): (r: string)
    ensures |r| <= |s| && (AllDigits(s) ==> AllDigits(r))
  {
    if s != "" && s[0] == '0' then TrimZeros(s[1..]) else s
  }

  function CompareBuildId(a: string, b: string): Ordering {
    if AllDigits(a) && !AllDigits(b) then Less
    else if !AllDigits(a) && AllDigits(b) then Greater
    else if AllDigits(a) then Then(CompareNumerals(TrimZeros(a), TrimZeros(b)), CompareInt(|a|, |b|))
    else Lex(a, b)
  }

  type Comparator = (string, string) -> Ordering

  /** Identifier by identifier; when one list runs out it comes first. */
  function CompareIds(cmp: Comparator, xs: seq<string>, ys: seq<string>): Ordering {
    if xs == [] then (if ys == [] then Equal else Less)
    else if ys == [] then Greater
    else Then(cmp(xs[0], ys[0]), CompareIds(cmp, xs[1..], ys[1..]))
  }

  /** `missing` is how an absent part compares with a present one. */
  function CompareParts(cmp: Comparator, missing: Ordering, a: Option<string>, b: Option<string>): Ordering {
    match (a, b)
    case (None, None) => Equal
    case (None, Some(_)) => missing
    case (Some(_), None) => Flip(missing)
    case (Some(x), Some(y)) => CompareIds(cmp, Split(x, '.'), Split(y, '.'))
  }

  function ComparePrerelease(a: Option<string>, b: Option<string>): Ordering {
    CompareParts(ComparePreId, Greater, a, b)
  }

  function CompareBuild(a: Option<string>, b: Option<string>): Ordering {
    CompareParts(CompareBuildId, Less, a, b)
  }

  function CompareCore(a: Version, b: Version): Ordering {
    Then(CompareInt(a.major, b.major), Then(CompareInt(a.minor, b.minor), CompareInt(a.patch, b.patch)))
  }

  function CompareParsed(a: Version, b: Version): Ordering {
    Then(CompareCore(a, b), Then(ComparePrerelease(a.pre, b.pre), CompareBuild(a.build, b.build)))
  }

  /** Parsed order when both parse, plain string order otherwise. */
  function Compare(left: string, right: string): Ordering {
    var l, r := Parse(left), Parse(right);
    if l.Some? && r.Some? then CompareParsed(l.value, r.value) else Lex(left, right)
  }

  /** The loop over both identifier iterators; equal identifiers are skipped without comparing them. */
  method CompareIdentifiers(cmp: Comparator, left: string, right: string) returns (order: Ordering)
    requires forall x :: cmp(x, x) == Equal
    ensures order == CompareIds(cmp, Split(left, '.'), Split(right, '.'))
  {
    var xs, ys := Split(left, '.'), Split(right, '.');
    var i := 0;
    while i < |xs| && i < |ys|
      invariant 0 <= i <= |xs| && i <= |ys|
      invariant CompareIds(cmp, xs, ys) == CompareIds(cmp, xs[i..], ys[i..])
    {
      if xs[i] != ys[i] {
        var o := cmp(xs[i], ys[i]);
        if o != Equal {
          return o;
        }
      }
      assert xs[i..][1..] == xs[i + 1..] && ys[i..][1..] == ys[i + 1..];
      i := i + 1;
    }
    return if i < |xs| then Greater else if i < |ys| then Less else Equal;
  }
}
