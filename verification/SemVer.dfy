/** Structured versions: src/version.cpp and include/runtimeregistry/version.hpp. */
module SemVer {
  import opened Base
  import opened Decimal

  const DOT: u8 := 46
  const DASH: u8 := 45
  const PLUS: u8 := 43

  datatype SemanticVersion = SemanticVersion(major: i64, minor: i64, patch: i64, prerelease: Bytes, build: Bytes)

  // ---- text ----

  /** `s.find(c)`, with the length of `s` for "not found". */
  function IndexOf(s: Bytes, c: u8): (k: nat)
    ensures k <= |s|
    ensures k < |s| ==> s[k] == c
    ensures forall i :: 0 <= i < k ==> s[i] != c
  {
    if s == [] || s[0] == c then 0 else 1 + IndexOf(s[1..], c)
  }

  lemma {:induction false} IndexOfSkips(u: Bytes, v: Bytes, c: u8)
    requires c !in u
    ensures IndexOf(u + v, c) == |u| + IndexOf(v, c)
  {
    if u == [] {
      assert u + v == v;
    } else {
      assert (u + v)[1..] == u[1..] + v;
      IndexOfSkips(u[1..], v, c);
    }
  }

  /** An optional part with its separator, as `str` appends it. */
  function Suffix(c: u8, w: Bytes): Bytes {
    if w == [] then [] else [c] + w
  }

  /** Cutting at a separator undoes appending an optional part. */
  lemma Cut(u: Bytes, c: u8, w: Bytes)
    requires c !in u
    ensures IndexOf(u + Suffix(c, w), c) == |u|
    ensures (u + Suffix(c, w))[..|u|] == u
    ensures w == [] ==> u + Suffix(c, w) == u
    ensures w != [] ==> |u| < |u + Suffix(c, w)| && (u + Suffix(c, w))[|u| + 1..] == w
  {
    IndexOfSkips(u, Suffix(c, w), c);
  }

  /** The pieces between dots; always at least one. */
  function Split(s: Bytes): (parts: seq<Bytes>)
    ensures parts != []
    decreases |s|
  {
    var k := IndexOf(s, DOT);
    if k == |s| then [s] else [s[..k]] + Split(s[k + 1..])
  }

  predicate IdentChar(c: u8) {
    IsDigit(c) || 65 <= c <= 90 || 97 <= c <= 122 || c == DASH
  }

  predicate ValidIdentifier(id: Bytes) {
    && id != []
    && (forall i :: 0 <= i < |id| ==> IdentChar(id[i]))
    && (AllDigits(id) ==> Canonical(id))
  }

  /** Dot-separated identifiers as `valid_dot_identifiers` accepts them: after the last dot there
      may be nothing. */
  predicate ValidIdentifiers(s: Bytes)
    decreases |s|
  {
    s != [] &&
    var k := IndexOf(s, DOT);
    ValidIdentifier(s[..k]) && (k + 1 < |s| ==> ValidIdentifiers(s[k + 1..]))
  }

  lemma OneIdentifier(s: Bytes)
    ensures ValidIdentifiers(s) == (s != [] && ValidIdentifier(s[..IndexOf(s, DOT)])
      && (IndexOf(s, DOT) + 1 < |s| ==> ValidIdentifiers(s[IndexOf(s, DOT) + 1..])))
  {
    hide ValidIdentifier, IndexOf;
  }

  method ValidDotIdentifiers(s: Bytes) returns (r: bool)
    ensures r == ValidIdentifiers(s)
  {
    hide ValidIdentifier, ValidIdentifiers, IndexOf;
    OneIdentifier(s);
    assert s[0..] == s;
    if |s| == 0 {
      return false;
    }
    var start := 0;
    while start < |s|
      invariant 0 <= start <= |s|
      invariant ValidIdentifiers(s) == (start < |s| ==> ValidIdentifiers(s[start..]))
    {
      var rest := s[start..];
      var dot := IndexOf(rest, DOT);
      OneIdentifier(rest);
      var ok := CheckIdentifier(rest[..dot]);
      if !ok {
        return false;
      }
      if dot == |rest| {
        return true;
      }
      assert rest[dot + 1..] == s[start + dot + 1..];
      start := start + dot + 1;
    }
    return true;
  }

  /** The body of that loop on one identifier. */
  method CheckIdentifier(id: Bytes) returns (r: bool)
    ensures r == ValidIdentifier(id)
  {
    if |id| == 0 {
      return false;
    }
    for i := 0 to |id|
      invariant forall j :: 0 <= j < i ==> IdentChar(id[j])
    {
      if !IdentChar(id[i]) {
        return false;
      }
    }
    var allDigit := AllDigit(id);
    return !(allDigit && |id| > 1 && id[0] == 48);
  }

  method AllDigit(s: Bytes) returns (r: bool)
    ensures r == AllDigits(s)
  {
    for i := 0 to |s|
      invariant forall j :: 0 <= j < i ==> IsDigit(s[j])
    {
      if s[i] < 48 || s[i] > 57 {
        return false;
      }
    }
    return true;
  }

  lemma {:induction false} ValidCharacters(s: Bytes)
    requires ValidIdentifiers(s)
    ensures PLUS !in s
    decreases |s|
  {
    var k := IndexOf(s, DOT);
    assert forall i :: 0 <= i < k ==> s[i] == s[..k][i];
    if k + 1 < |s| {
      ValidCharacters(s[k + 1..]);
      assert forall i :: k < i < |s| ==> s[i] == s[k + 1..][i - k - 1];
    }
  }

  // ---- parsing and printing ----

  function Parse(text: Bytes): Option<SemanticVersion> {
    if text == [] then None
    else
      var plus := IndexOf(text, PLUS);
      var build := if plus < |text| then text[plus + 1..] else [];
      if plus < |text| && !ValidIdentifiers(build) then None
      else
        var rest := text[..plus];
        var dash := IndexOf(rest, DASH);
        var prerelease := if dash < |rest| then rest[dash + 1..] else [];
        if dash < |rest| && !ValidIdentifiers(prerelease) then None
        else ParseCore(rest[..dash], prerelease, build)
  }

  function ParseCore(rest: Bytes, prerelease: Bytes, build: Bytes): Option<SemanticVersion> {
    var dot1 := IndexOf(rest, DOT);
    if dot1 == |rest| then None
    else
      var tail := rest[dot1 + 1..];
      var dot2 := IndexOf(tail, DOT);
      if dot2 == |tail| then None
      else
        var pat := tail[dot2 + 1..];
        if DOT in pat then None
        else
          match (Parsed(rest[..dot1]), Parsed(tail[..dot2]))
          case (Some(major), Some(minor)) =>
            if pat == [] then Some(SemanticVersion(major, minor, 0, prerelease, build))
            else (match Parsed(pat)
                  case Some(patch) => Some(SemanticVersion(major, minor, patch, prerelease, build))
                  case None => None)
          case _ => None
  }

  function ToString(n: i64): (s: Bytes) {
    var m: int := n;
    if m < 0 then [DASH] + Digits(-m) else Digits(m)
  }

  function Core(v: SemanticVersion): Bytes {
    ToString(v.major) + [DOT] + ToString(v.minor) + [DOT] + ToString(v.patch)
  }

  function Str(v: SemanticVersion): Bytes {
    Core(v) + Suffix(DASH, v.prerelease) + Suffix(PLUS, v.build)
  }

  predicate WellFormed(v: SemanticVersion) {
    && v.major >= 0 && v.minor >= 0 && v.patch >= 0
    && (v.prerelease == [] || ValidIdentifiers(v.prerelease))
    && (v.build == [] || ValidIdentifiers(v.build))
  }

  lemma DigitCharacters(n: nat)
    ensures DOT !in Digits(n) && DASH !in Digits(n) && PLUS !in Digits(n) && Digits(n) != []
    ensures n < TWO_63 ==> Parsed(Digits(n)) == Some(n)
  {
    DigitsAreCanonical(n);
    ParsedExactly(Digits(n));
  }

  lemma ParseCoreOfCore(v: SemanticVersion)
    requires v.major >= 0 && v.minor >= 0 && v.patch >= 0
    ensures ParseCore(Core(v), v.prerelease, v.build) == Some(v)
  {
    hide Digits, Parsed, IndexOf;
    var a, b, c := Digits(v.major), Digits(v.minor), Digits(v.patch);
    DigitCharacters(v.major);
    DigitCharacters(v.minor);
    DigitCharacters(v.patch);
    var tail := b + Suffix(DOT, c);
    assert Core(v) == a + Suffix(DOT, tail);
    Cut(a, DOT, tail);
    Cut(b, DOT, c);
  }

  /** The optional parts are cut off from the end. */
  lemma ParseCuts(core: Bytes, prerelease: Bytes, build: Bytes)
    requires core != [] && PLUS !in core && DASH !in core
    requires (prerelease == [] || ValidIdentifiers(prerelease)) && (build == [] || ValidIdentifiers(build))
    ensures Parse(core + Suffix(DASH, prerelease) + Suffix(PLUS, build)) == ParseCore(core, prerelease, build)
  {
    hide ParseCore, ValidIdentifiers, IndexOf;
    if prerelease != [] {
      ValidCharacters(prerelease);
    }
    Cut(core + Suffix(DASH, prerelease), PLUS, build);
    Cut(core, DASH, prerelease);
  }

  lemma ParseOfStr(v: SemanticVersion)
    requires WellFormed(v)
    ensures Parse(Str(v)) == Some(v)
  {
    hide ParseCore, Core, ValidIdentifiers, Parse;
    CoreCharacters(v);
    ParseCuts(Core(v), v.prerelease, v.build);
    ParseCoreOfCore(v);
  }

  lemma CoreCharacters(v: SemanticVersion)
    requires v.major >= 0 && v.minor >= 0 && v.patch >= 0
    ensures Core(v) != [] && PLUS !in Core(v) && DASH !in Core(v)
  {
    DigitCharacters(v.major);
    DigitCharacters(v.minor);
    DigitCharacters(v.patch);
  }

  lemma ParsedCharacters(x: Bytes)
    requires Parsed(x).Some?
    ensures DOT !in x && DASH !in x && PLUS !in x && x != []
  {
    ParsedExactly(x);
  }

  lemma CoreInOrder(x: Bytes, y: Bytes, z: Bytes, prerelease: Bytes, build: Bytes)
    requires Parsed(x).Some? && Parsed(y).Some? && Parsed(z).Some?
    ensures
      var core := x + [DOT] + y + [DOT] + z;
      && ParseCore(core, prerelease, build) ==
           Some(SemanticVersion(Parsed(x).value, Parsed(y).value, Parsed(z).value, prerelease, build))
      && core != [] && PLUS !in core && DASH !in core
  {
    hide Parsed, IndexOf;
    ParsedCharacters(x);
    ParsedCharacters(y);
    ParsedCharacters(z);
    var tail := y + Suffix(DOT, z);
    assert x + [DOT] + y + [DOT] + z == x + Suffix(DOT, tail);
    Cut(x, DOT, tail);
    Cut(y, DOT, z);
  }

  lemma Appended(u: Bytes, c: u8, w: Bytes)
    ensures u + Suffix(c, w) == if w == [] then u else u + [c] + w
  {
  }

  /** In a version text the first numeral is the major, the second the minor and the third the patch
      number; the prerelease follows a dash and the build metadata a plus. */
  lemma ParsesInOrder(x: Bytes, y: Bytes, z: Bytes, prerelease: Bytes, build: Bytes)
    requires Parsed(x).Some? && Parsed(y).Some? && Parsed(z).Some?
    requires (prerelease == [] || ValidIdentifiers(prerelease)) && (build == [] || ValidIdentifiers(build))
    ensures
      var core := x + [DOT] + y + [DOT] + z;
      var marked := if prerelease == [] then core else core + [DASH] + prerelease;
      var text := if build == [] then marked else marked + [PLUS] + build;
      Parse(text) == Some(SemanticVersion(Parsed(x).value, Parsed(y).value, Parsed(z).value, prerelease, build))
  {
    hide ParseCore, Parsed, ValidIdentifiers, Parse;
    CoreInOrder(x, y, z, prerelease, build);
    var core := x + [DOT] + y + [DOT] + z;
    ParseCuts(core, prerelease, build);
    Appended(core, DASH, prerelease);
    Appended(core + Suffix(DASH, prerelease), PLUS, build);
  }

  lemma ParseIsWellFormed(text: Bytes)
    requires Parse(text).Some?
    ensures WellFormed(Parse(text).value)
  {
    hide ParseCore, ValidIdentifiers, IndexOf;
    var plus := IndexOf(text, PLUS);
    var rest := text[..plus];
    var dash := IndexOf(rest, DASH);
    var prerelease := if dash < |rest| then rest[dash + 1..] else [];
    var build := if plus < |text| then text[plus + 1..] else [];
    ParseCoreKeeps(rest[..dash], prerelease, build);
  }

  lemma ParseCoreKeeps(rest: Bytes, prerelease: Bytes, build: Bytes)
    ensures match ParseCore(rest, prerelease, build)
            case Some(v) => v.major >= 0 && v.minor >= 0 && v.patch >= 0 && v.prerelease == prerelease
              && v.build == build
            case None => true
  {
    hide Parsed;
    forall s: Bytes
      ensures Parsed(s).Some? ==> Parsed(s).value >= 0
    {
      ParsedExactly(s);
    }
  }

  /** Printing is a normal form: it undoes nothing that parsing established, on every accepted
      text, including those with an empty patch, a trailing dot or an oversized numeral. */
  lemma ParseStrParse(text: Bytes)
    requires Parse(text).Some?
    ensures Parse(Str(Parse(text).value)) == Parse(text)
  {
    ParseIsWellFormed(text);
    ParseOfStr(Parse(text).value);
  }

  // ---- comparison, as the code does it ----

  /** A run of digits accumulated in a 64-bit register, without a guard. */
  function Register(s: Bytes, v: i64): i64
    requires AllDigits(s)
  {
    if s == [] then v else Register(s[1..], Wrap(v * 10 + (s[0] - 48)))
  }

  function Sign(less: bool): int {
    if less then -1 else 1
  }

  /** `A < B` on string views: unsigned bytes, a prefix first. */
  predicate LexLess(x: Bytes, y: Bytes) {
    y != [] && (x == [] || x[0] < y[0] || (x[0] == y[0] && LexLess(x[1..], y[1..])))
  }

  function IdentifierOrder(x: Bytes, y: Bytes): int {
    if AllDigits(x) && AllDigits(y) then
      var an, bn := Register(x, 0), Register(y, 0);
      if an != bn then Sign(an < bn) else 0
    else if AllDigits(x) != AllDigits(y) then Sign(AllDigits(x))
    else if x != y then Sign(LexLess(x, y)) else 0
  }

  function ListOrder(xs: seq<Bytes>, ys: seq<Bytes>): int
    requires xs != [] && ys != []
  {
    if xs[0] == [] && ys[0] == [] then 0
    else if xs[0] == [] then -1
    else if ys[0] == [] then 1
    else
      var c := IdentifierOrder(xs[0], ys[0]);
      if c != 0 then c
      else if |xs| == 1 && |ys| == 1 then 0
      else if |xs| == 1 then -1
      else if |ys| == 1 then 1
      else ListOrder(xs[1..], ys[1..])
  }

  function CompareOf(a: SemanticVersion, b: SemanticVersion): int {
    if a.major != b.major then Sign(a.major < b.major)
    else if a.minor != b.minor then Sign(a.minor < b.minor)
    else if a.patch != b.patch then Sign(a.patch < b.patch)
    else if a.prerelease == [] && b.prerelease == [] then 0
    else if b.prerelease == [] then -1
    else if a.prerelease == [] then 1
    else ListOrder(Split(a.prerelease), Split(b.prerelease))
  }

  method ReadRegister(s: Bytes) returns (n: i64)
    requires AllDigits(s)
    ensures n == Register(s, 0)
  {
    n := 0;
    for i := 0 to |s|
      invariant Register(s[i..], n) == Register(s, 0)
    {
      assert s[i..][1..] == s[i + 1..];
      n := Wrap(n * 10 + (s[i] - 48));
    }
  }

  method Compare(a: SemanticVersion, b: SemanticVersion) returns (r: int)
    ensures r == CompareOf(a, b)
  {
    if a.major != b.major { return if a.major < b.major then -1 else 1; }
    if a.minor != b.minor { return if a.minor < b.minor then -1 else 1; }
    if a.patch != b.patch { return if a.patch < b.patch then -1 else 1; }
    if a.prerelease == [] && b.prerelease == [] { return 0; }
    if a.prerelease != [] && b.prerelease == [] { return -1; }
    if a.prerelease == [] && b.prerelease != [] { return 1; }
    r := ComparePrereleases(a.prerelease, b.prerelease);
  }

  lemma SplitStep(s: Bytes, i: nat) returns (d: nat)
    requires i <= |s|
    ensures d == i + IndexOf(s[i..], DOT)
    ensures Split(s[i..])[0] == s[i..d]
    ensures |Split(s[i..])| == 1 <==> d == |s|
    ensures d < |s| ==> Split(s[i..])[1..] == Split(s[d + 1..])
  {
    d := i + IndexOf(s[i..], DOT);
    assert s[i..][..d - i] == s[i..d];
    if d < |s| {
      assert s[i..][d - i + 1..] == s[d + 1..];
      assert Split(s[i..]) == [s[i..d]] + Split(s[d + 1..]);
    }
  }

  method ComparePrereleases(p: Bytes, q: Bytes) returns (r: int)
    ensures r == ListOrder(Split(p), Split(q))
  {
    hide IdentifierOrder, IndexOf, Split;
    var ia, ib := 0, 0;
    assert p[0..] == p && q[0..] == q;
    while true
      invariant 0 <= ia <= |p| && 0 <= ib <= |q|
      invariant ListOrder(Split(p[ia..]), Split(q[ib..])) == ListOrder(Split(p), Split(q))
      decreases |p| - ia
    {
      var da := ia + IndexOf(p[ia..], DOT);
      var db := ib + IndexOf(q[ib..], DOT);
      var x, y := p[ia..da], q[ib..db];
      assert x == Split(p[ia..])[0] && y == Split(q[ib..])[0] by {
        var _ := SplitStep(p, ia);
        var _ := SplitStep(q, ib);
      }
      if x == [] && y == [] { return 0; }
      if x == [] { return -1; }
      if y == [] { return 1; }
      var c := CompareIdentifiers(x, y);
      if c != 0 { return c; }
      ghost var _ := SplitStep(p, ia);
      ghost var _ := SplitStep(q, ib);
      if da == |p| || db == |q| {
        if da == |p| && db == |q| { return 0; }
        return if da == |p| then -1 else 1;
      }
      ia, ib := da + 1, db + 1;
    }
  }

  /** The body of the comparison loop on one pair of identifiers. */
  method CompareIdentifiers(x: Bytes, y: Bytes) returns (r: int)
    ensures r == IdentifierOrder(x, y)
  {
    var xNum := AllDigit(x);
    var yNum := AllDigit(y);
    if xNum && yNum {
      var an := ReadRegister(x);
      var bn := ReadRegister(y);
      r := if an != bn then Sign(an < bn) else 0;
    } else if xNum != yNum {
      r := if xNum then -1 else 1;
    } else {
      r := if x != y then Sign(LexLess(x, y)) else 0;
    }
  }

  // ---- precedence, as section 11 of Semantic Versioning 2.0.0 defines it ----

  /** Numeric identifiers compare numerically and precede the others, which compare in ASCII
      order.  The empty identifier after a trailing dot, which the standard does not know,
      precedes every identifier. */
  function IdentifierPrecedence(x: Bytes, y: Bytes): int {
    if x == [] || y == [] then
      if x == y then 0 else Sign(x == [])
    else if AllDigits(x) && AllDigits(y) then
      if NumeralValue(x) == NumeralValue(y) then 0 else Sign(NumeralValue(x) < NumeralValue(y))
    else if AllDigits(x) || AllDigits(y) then Sign(AllDigits(x))
    else if x == y then 0 else Sign(LexLess(x, y))
  }

  /** A larger set of fields follows a smaller one if all preceding identifiers are equal. */
  function ListPrecedence(xs: seq<Bytes>, ys: seq<Bytes>): int {
    if xs == [] && ys == [] then 0
    else if xs == [] then -1
    else if ys == [] then 1
    else
      var c := IdentifierPrecedence(xs[0], ys[0]);
      if c != 0 then c else ListPrecedence(xs[1..], ys[1..])
  }

  function Precedence(a: SemanticVersion, b: SemanticVersion): int {
    if (a.major, a.minor, a.patch) != (b.major, b.minor, b.patch) then
      Sign(a.major < b.major || (a.major == b.major
      && (a.minor < b.minor || (a.minor == b.minor && a.patch < b.patch))))
    else if a.prerelease == [] || b.prerelease == [] then
      if a.prerelease == b.prerelease then 0 else Sign(b.prerelease == [])
    else ListPrecedence(Split(a.prerelease), Split(b.prerelease))
  }

  /** Every numeric identifier is below 2^63. */
  predicate SmallNumerals(ids: seq<Bytes>) {
    forall id :: id in ids && AllDigits(id) ==> NumeralValue(id) < TWO_63
  }

  /** Identifiers as they come out of a parsed version: valid, except that the last may be empty. */
  predicate ParsedIdentifiers(ids: seq<Bytes>) {
    forall i :: 0 <= i < |ids| ==> ValidIdentifier(ids[i]) || (i == |ids| - 1 && ids[i] == [])
  }

  lemma {:induction false} SplitOfValid(s: Bytes)
    requires s == [] || ValidIdentifiers(s)
    ensures ParsedIdentifiers(Split(s))
    decreases |s|
  {
    var k := IndexOf(s, DOT);
    if k < |s| {
      SplitOfValid(s[k + 1..]);
      var rest := Split(s[k + 1..]);
      assert Split(s) == [s[..k]] + rest;
      forall i | 0 <= i < |Split(s)|
        ensures ValidIdentifier(Split(s)[i]) || (i == |Split(s)| - 1 && Split(s)[i] == [])
      {
        assert i > 0 ==> Split(s)[i] == rest[i - 1];
      }
    } else {
      assert s != [] ==> s[..k] == s;
    }
  }

  lemma {:induction false} RegisterOfAccumulate(s: Bytes, v: i64)
    requires AllDigits(s) && Accumulate(s, v).Some?
    ensures Register(s, v) == Accumulate(s, v).value
  {
    if s != [] {
      RegisterOfAccumulate(s[1..], Wrap(v * 10 + (s[0] - 48)));
    }
  }

  lemma RegisterIsValue(s: Bytes)
    requires AllDigits(s) && NumeralValue(s) < TWO_63
    ensures Register(s, 0) == NumeralValue(s)
  {
    assert [] + s == s;
    AccumulateExact([], s);
    RegisterOfAccumulate(s, 0);
  }

  lemma {:induction false} ListOrderIsPrecedence(xs: seq<Bytes>, ys: seq<Bytes>)
    requires xs != [] && ys != []
    requires ParsedIdentifiers(xs) && ParsedIdentifiers(ys)
    requires SmallNumerals(xs) && SmallNumerals(ys)
    ensures ListOrder(xs, ys) == ListPrecedence(xs, ys)
  {
    hide NumeralValue, Register, LexLess, Canonical;
    if AllDigits(xs[0]) {
      RegisterIsValue(xs[0]);
    }
    if AllDigits(ys[0]) {
      RegisterIsValue(ys[0]);
    }
    if xs[0] == [] && ys[0] == [] {
      assert xs == [[]] && ys == [[]];
    } else if xs[0] != [] && ys[0] != [] && IdentifierOrder(xs[0], ys[0]) == 0 && |xs| > 1 && |ys| > 1 {
      assert forall i :: 0 <= i < |xs| - 1 ==> xs[1..][i] == xs[i + 1];
      assert forall i :: 0 <= i < |ys| - 1 ==> ys[1..][i] == ys[i + 1];
      ListOrderIsPrecedence(xs[1..], ys[1..]);
    }
  }

  /** The comparison loop refines section 11 on versions that parsing yields, as long as every
      numeric pre-release identifier is below 2^63. */
  lemma CompareIsPrecedence(a: SemanticVersion, b: SemanticVersion)
    requires WellFormed(a) && WellFormed(b)
    requires SmallNumerals(Split(a.prerelease)) && SmallNumerals(Split(b.prerelease))
    ensures CompareOf(a, b) == Precedence(a, b)
  {
    if a.prerelease != [] && b.prerelease != [] {
      hide Split, ListOrder, ListPrecedence, ValidIdentifiers;
      SplitOfValid(a.prerelease);
      SplitOfValid(b.prerelease);
      ListOrderIsPrecedence(Split(a.prerelease), Split(b.prerelease));
    }
  }

  // ---- precedence is a total preorder ----

  lemma {:induction false} LexTotal(x: Bytes, y: Bytes)
    ensures x == y || LexLess(x, y) || LexLess(y, x)
    ensures !(LexLess(x, y) && LexLess(y, x)) && !LexLess(x, x)
  {
    if x != [] && y != [] {
      LexTotal(x[1..], y[1..]);
      assert x == [x[0]] + x[1..] && y == [y[0]] + y[1..];
    }
    if x != [] {
      LexTotal(x[1..], x[1..]);
    }
  }

  lemma {:induction false} LexTransitive(x: Bytes, y: Bytes, z: Bytes)
    requires LexLess(x, y) && LexLess(y, z)
    ensures LexLess(x, z)
  {
    if x != [] && x[0] == y[0] == z[0] {
      LexTransitive(x[1..], y[1..], z[1..]);
    }
  }

  lemma IdentifierReversal(x: Bytes, y: Bytes)
    ensures IdentifierPrecedence(y, x) == -IdentifierPrecedence(x, y)
  {
    LexTotal(x, y);
  }

  lemma IdentifierTransitivity(x: Bytes, y: Bytes, z: Bytes)
    requires IdentifierPrecedence(x, y) <= 0 && IdentifierPrecedence(y, z) <= 0
    ensures IdentifierPrecedence(x, z) <= 0
    ensures IdentifierPrecedence(x, z) == 0 ==> IdentifierPrecedence(x, y) == 0 && IdentifierPrecedence(y, z) == 0
    ensures IdentifierPrecedence(x, y) == 0 && IdentifierPrecedence(y, z) == 0 ==> IdentifierPrecedence(x, z) == 0
  {
    hide NumeralValue, LexLess;
    LexTotal(x, y);
    LexTotal(y, z);
    LexTotal(x, z);
    if LexLess(x, y) && LexLess(y, z) {
      LexTransitive(x, y, z);
    }
  }

  lemma {:induction false} ListReversal(xs: seq<Bytes>, ys: seq<Bytes>)
    ensures ListPrecedence(ys, xs) == -ListPrecedence(xs, ys)
  {
    if xs != [] && ys != [] {
      IdentifierReversal(xs[0], ys[0]);
      ListReversal(xs[1..], ys[1..]);
    }
  }

  lemma {:induction false} ListTransitivity(xs: seq<Bytes>, ys: seq<Bytes>, zs: seq<Bytes>)
    requires ListPrecedence(xs, ys) <= 0 && ListPrecedence(ys, zs) <= 0
    ensures ListPrecedence(xs, zs) <= 0
  {
    hide IdentifierPrecedence;
    if xs != [] && ys != [] && zs != [] {
      IdentifierTransitivity(xs[0], ys[0], zs[0]);
      if IdentifierPrecedence(xs[0], ys[0]) == 0 && IdentifierPrecedence(ys[0], zs[0]) == 0 {
        ListTransitivity(xs[1..], ys[1..], zs[1..]);
      }
    }
  }

  /** Swapping the arguments flips the sign: the order is total. */
  lemma PrecedenceReversal(a: SemanticVersion, b: SemanticVersion)
    ensures Precedence(b, a) == -Precedence(a, b)
  {
    ListReversal(Split(a.prerelease), Split(b.prerelease));
  }

  lemma PrecedenceTransitivity(a: SemanticVersion, b: SemanticVersion, c: SemanticVersion)
    requires Precedence(a, b) <= 0 && Precedence(b, c) <= 0
    ensures Precedence(a, c) <= 0
  {
    hide Split, ListPrecedence;
    if a.prerelease != [] && b.prerelease != [] && c.prerelease != []
      && ListPrecedence(Split(a.prerelease), Split(b.prerelease)) <= 0
      && ListPrecedence(Split(b.prerelease), Split(c.prerelease)) <= 0 {
      ListTransitivity(Split(a.prerelease), Split(b.prerelease), Split(c.prerelease));
    }
  }

  lemma IdentifierEquality(x: Bytes, y: Bytes)
    requires x == [] || ValidIdentifier(x)
    requires y == [] || ValidIdentifier(y)
    requires IdentifierPrecedence(x, y) == 0
    ensures x == y
  {
    if x != [] && y != [] && AllDigits(x) && AllDigits(y) {
      DigitsOfValue(x);
      DigitsOfValue(y);
    }
  }

  lemma {:induction false} ListEquality(xs: seq<Bytes>, ys: seq<Bytes>)
    requires ParsedIdentifiers(xs) && ParsedIdentifiers(ys)
    requires ListPrecedence(xs, ys) == 0
    ensures xs == ys
  {
    if xs != [] {
      IdentifierEquality(xs[0], ys[0]);
      assert forall i :: 0 <= i < |xs| - 1 ==> xs[1..][i] == xs[i + 1];
      assert forall i :: 0 <= i < |ys| - 1 ==> ys[1..][i] == ys[i + 1];
      ListEquality(xs[1..], ys[1..]);
      assert xs == [xs[0]] + xs[1..] && ys == [ys[0]] + ys[1..];
    }
  }

  function Join(parts: seq<Bytes>): Bytes
    requires parts != []
  {
    if |parts| == 1 then parts[0] else parts[0] + [DOT] + Join(parts[1..])
  }

  lemma {:induction false} JoinOfSplit(s: Bytes)
    ensures Join(Split(s)) == s
    decreases |s|
  {
    hide IndexOf;
    var k := IndexOf(s, DOT);
    if k < |s| {
      JoinOfSplit(s[k + 1..]);
      assert Split(s)[1..] == Split(s[k + 1..]);
      assert s == s[..k] + [DOT] + s[k + 1..];
    }
  }

  /** Versions of equal precedence differ at most in build metadata. */
  lemma PrecedenceEquality(a: SemanticVersion, b: SemanticVersion)
    requires WellFormed(a) && WellFormed(b)
    ensures Precedence(a, b) == 0 <==> a.(build := b.build) == b
  {
    hide Split, ListPrecedence, ValidIdentifiers;
    if a.prerelease != [] && b.prerelease != [] {
      SplitOfValid(a.prerelease);
      SplitOfValid(b.prerelease);
      ListReversal(Split(a.prerelease), Split(a.prerelease));
      if Precedence(a, b) == 0 {
        ListEquality(Split(a.prerelease), Split(b.prerelease));
        JoinOfSplit(a.prerelease);
        JoinOfSplit(b.prerelease);
      }
    }
  }

  // ---- where the comparison leaves section 11 ----

  lemma {:induction false} SplitOfJoin(ids: seq<Bytes>)
    requires ids != [] && forall id :: id in ids ==> DOT !in id
    ensures Split(Join(ids)) == ids
  {
    if |ids| == 1 {
      SplitOfOne(ids[0]);
    } else {
      SplitOfJoin(ids[1..]);
      SplitCons(ids[0], Join(ids[1..]));
    }
  }

  lemma {:induction false} ValidJoin(ids: seq<Bytes>)
    requires ids != [] && forall id :: id in ids ==> ValidIdentifier(id)
    ensures ValidIdentifiers(Join(ids))
  {
    hide ValidIdentifier, IndexOf;
    var s := Join(ids);
    assert DOT !in ids[0] by { NoDot(ids[0]); }
    OneIdentifier(s);
    if |ids| == 1 {
      IndexOfSkips(ids[0], [], DOT);
      assert ids[0] + [] == ids[0] == s && s[..|s|] == s;
      assert IndexOf([], DOT) == 0;
      assert s != [] by { NoDot(s); }
    } else {
      var rest := Join(ids[1..]);
      ValidJoin(ids[1..]);
      assert s == ids[0] + ([DOT] + rest);
      IndexOfSkips(ids[0], [DOT] + rest, DOT);
      FirstIsHit(rest);
      assert s[..|ids[0]|] == ids[0] && s[|ids[0]| + 1..] == rest;
    }
  }

  lemma NoDot(id: Bytes)
    requires ValidIdentifier(id)
    ensures DOT !in id && id != []
  {
  }

  lemma FirstIsHit(rest: Bytes)
    ensures IndexOf([DOT] + rest, DOT) == 0
  {
  }

  predicate Oversized(id: Bytes) {
    AllDigits(id) && NumeralValue(id) >= TWO_63
  }

  /** Identifiers that section 11 puts below `ids` and the comparison loop above: cut at the first
      oversized identifier, with the largest 64-bit number in its place and a text behind it. */
  function Rival(ids: seq<Bytes>): seq<Bytes> {
    if ids == [] then []
    else if Oversized(ids[0]) then [Digits(TWO_63 - 1), (if |ids| > 1 then ids[1] else []) + [122]]
    else [ids[0]] + Rival(ids[1..])
  }

  lemma {:induction false} RivalIsValid(ids: seq<Bytes>)
    requires ParsedIdentifiers(ids) && exists id :: id in ids && Oversized(id)
    ensures Rival(ids) != [] && SmallNumerals(Rival(ids))
    ensures forall id :: id in Rival(ids) ==> ValidIdentifier(id)
  {
    if Oversized(ids[0]) {
      DigitsAreCanonical(TWO_63 - 1);
      var big := Digits(TWO_63 - 1);
      hide Digits, NumeralValue;
      var text := (if |ids| > 1 then ids[1] else []) + [122];
      assert !AllDigits(text) by { assert text[|text| - 1] == 122; }
      assert ValidIdentifier(text) && ValidIdentifier(big);
    } else {
      hide NumeralValue, Digits;
      RestHasOversized(ids);
      RivalIsValid(ids[1..]);
      assert ids[0] in ids && (AllDigits(ids[0]) ==> NumeralValue(ids[0]) < TWO_63);
      assert |ids| > 1 && ValidIdentifier(ids[0]);
      assert forall id :: id in Rival(ids) ==> id == ids[0] || id in Rival(ids[1..]);
    }
  }

  lemma RestHasOversized(ids: seq<Bytes>)
    requires ParsedIdentifiers(ids) && (exists id :: id in ids && Oversized(id)) && !Oversized(ids[0])
    ensures |ids| > 1 && ParsedIdentifiers(ids[1..]) && exists id :: id in ids[1..] && Oversized(id)
  {
    hide ValidIdentifier;
    var id :| id in ids && Oversized(id);
    assert ids == [ids[0]] + ids[1..];
    assert id in ids[1..];
    assert forall i :: 0 <= i < |ids| - 1 ==> ids[1..][i] == ids[i + 1];
  }

  lemma IdentifierAgainstItself(x: Bytes)
    ensures IdentifierOrder(x, x) == 0 && IdentifierPrecedence(x, x) == 0
  {
  }

  /** The oversized number is at most the largest one in a 64-bit register, and more by value. */
  lemma OversizedAgainstLargest(x: Bytes)
    requires Oversized(x)
    ensures -1 <= IdentifierOrder(x, Digits(TWO_63 - 1)) <= 0 && IdentifierPrecedence(x, Digits(TWO_63 - 1)) == 1
  {
    DigitsAreCanonical(TWO_63 - 1);
    RegisterIsValue(Digits(TWO_63 - 1));
    hide Digits, Register, NumeralValue;
  }

  lemma LongerText(x: Bytes)
    requires x == [] || ValidIdentifier(x)
    ensures x != [] ==> IdentifierOrder(x, x + [122]) == -1
  {
    assert !AllDigits(x + [122]) by { assert (x + [122])[|x|] == 122; }
    PrefixIsLess(x, 122);
  }

  lemma {:induction false} PrefixIsLess(x: Bytes, c: u8)
    ensures LexLess(x, x + [c])
  {
    if x != [] {
      assert (x + [c])[1..] == x[1..] + [c];
      PrefixIsLess(x[1..], c);
    }
  }

  lemma {:induction false} RivalDisagrees(ids: seq<Bytes>)
    requires ParsedIdentifiers(ids) && exists id :: id in ids && Oversized(id)
    ensures Rival(ids) != [] && ListOrder(ids, Rival(ids)) == -1 && ListPrecedence(ids, Rival(ids)) == 1
  {
    hide IdentifierOrder, IdentifierPrecedence, Oversized, ValidIdentifier;
    if Oversized(ids[0]) {
      OversizedAgainstLargest(ids[0]);
      assert ids[0] != [] by { OversizedIsThere(ids[0]); }
      assert Digits(TWO_63 - 1) != [] by { DigitsAreCanonical(TWO_63 - 1); }
      if |ids| > 1 {
        LongerText(ids[1]);
        assert ids[1..][0] == ids[1] && Rival(ids)[1..] == [ids[1] + [122]];
        assert ListOrder(ids[1..], [ids[1] + [122]]) == -1;
      }
    } else {
      RestHasOversized(ids);
      RivalDisagrees(ids[1..]);
      IdentifierAgainstItself(ids[0]);
      assert ids[0] != [] by { NoDot(ids[0]); }
    }
  }

  lemma OversizedIsThere(x: Bytes)
    requires Oversized(x)
    ensures x != []
  {
  }

  /** A parsed version compares as section 11 says, with every version whose numeric identifiers are
      below 2^63, exactly when its own are. */
  lemma ComparesByPrecedenceExactly(a: SemanticVersion)
    requires WellFormed(a)
    ensures (forall b :: WellFormed(b) && SmallNumerals(Split(b.prerelease)) ==> CompareOf(a, b) == Precedence(a, b))
      <==> SmallNumerals(Split(a.prerelease))
  {
    hide CompareOf, Precedence, Split, ValidIdentifiers;
    if SmallNumerals(Split(a.prerelease)) {
      forall b | WellFormed(b) && SmallNumerals(Split(b.prerelease)) ensures CompareOf(a, b) == Precedence(a, b) {
        CompareIsPrecedence(a, b);
      }
    } else {
      var b := RivalOf(a);
    }
  }

  lemma RivalOf(a: SemanticVersion) returns (b: SemanticVersion)
    requires WellFormed(a) && !SmallNumerals(Split(a.prerelease))
    ensures WellFormed(b) && SmallNumerals(Split(b.prerelease))
    ensures CompareOf(a, b) == -1 && Precedence(a, b) == 1
  {
    var ids := Split(a.prerelease);
    assert a.prerelease != [] by {
      NoOversizedInNothing();
    }
    hide Split, ValidIdentifiers, ListOrder, ListPrecedence, Rival, NumeralValue, ValidIdentifier;
    SplitOfValid(a.prerelease);
    assert exists id :: id in ids && Oversized(id);
    RivalIsValid(ids);
    RivalDisagrees(ids);
    var rival := Rival(ids);
    forall id | id in rival ensures DOT !in id {
      NoDot(id);
    }
    SplitOfJoin(rival);
    ValidJoin(rival);
    b := a.(prerelease := Join(rival));
    assert b.prerelease != [] by { NotEmpty(b.prerelease); }
  }

  lemma NotEmpty(s: Bytes)
    requires ValidIdentifiers(s)
    ensures s != []
  {
  }

  lemma NoOversizedInNothing()
    ensures SmallNumerals(Split([]))
  {
  }

  /** Without the bound the comparison is no order on texts: the numeral of 2^64 wraps to zero, so
      two different pre-releases compare as equal although section 11 separates them. */
  lemma OversizedIdentifiersCollide()
    ensures
      var a := SemanticVersion(1, 0, 0, Digits(TWO_64), []);
      var b := SemanticVersion(1, 0, 0, Digits(0), []);
      WellFormed(a) && WellFormed(b) && CompareOf(a, b) == 0 && Precedence(a, b) == 1
  {
    var big, zero := Digits(TWO_64), Digits(0);
    DigitsAreCanonical(TWO_64);
    DigitsAreCanonical(0);
    RegisterWraps();
    DigitCharacters(TWO_64);
    DigitCharacters(0);
    hide Digits, Register, NumeralValue, IndexOf, Split;
    SplitOfOne(big);
    SplitOfOne(zero);
    ValidNumeral(big);
    ValidNumeral(zero);
  }

  lemma RegisterWraps()
    ensures AllDigits(Digits(TWO_64)) && AllDigits(Digits(0))
    ensures Register(Digits(TWO_64), 0) == 0 == Register(Digits(0), 0)
  {
    var front := Digits(TWO_64 / 10);
    assert Digits(TWO_64) == front + [48 + 6];
    DigitsAreCanonical(TWO_64 / 10);
    RegisterIsValue(front);
    RegisterSnoc(front, 48 + 6, 0);
    assert Wrap(TWO_64 / 10 * 10 + 6) == 0;
    assert Digits(0)[1..] == [];
  }

  lemma SplitOfOne(s: Bytes)
    requires DOT !in s
    ensures Split(s) == [s]
  {
  }

  lemma ValidNumeral(s: Bytes)
    requires Canonical(s)
    ensures ValidIdentifiers(s)
  {
    assert DOT !in s && s[..|s|] == s;
  }

  lemma {:induction false} RegisterSnoc(s: Bytes, d: u8, v: i64)
    requires AllDigits(s) && IsDigit(d)
    ensures AllDigits(s + [d])
    ensures Register(s + [d], v) == Wrap(Register(s, v) * 10 + (d - 48))
  {
    if s != [] {
      assert (s + [d])[1..] == s[1..] + [d];
      RegisterSnoc(s[1..], d, Wrap(v * 10 + (s[0] - 48)));
    }
  }

  // ---- API, ABI and protocol versions ----

  datatype StructuredVersion = StructuredVersion(major: i64, minor: i64, patch: i64) {
    /** `operator<`, by `compare` */
    predicate Less(o: StructuredVersion) {
      if major != o.major then major < o.major
      else if minor != o.minor then minor < o.minor
      else patch < o.patch
    }
  }

  /** `parse_version_components`: one to three numerals. */
  function ParseStructured(text: Bytes): Option<StructuredVersion> {
    var parts := Split(text);
    if text == [] || |parts| > 3 then None
    else
      match (Parsed(parts[0]), if |parts| >= 2 then Parsed(parts[1])
        else Some(0), if |parts| >= 3 then Parsed(parts[2]) else Some(0))
      case (Some(a), Some(b), Some(c)) => Some(StructuredVersion(a, b, c))
      case _ => None
  }

  method SplitLoop(s: Bytes) returns (parts: seq<Bytes>)
    ensures parts == Split(s)
  {
    hide Split, IndexOf;
    parts := [];
    var start := 0;
    assert s[0..] == s;
    while true
      invariant 0 <= start <= |s|
      invariant parts + Split(s[start..]) == Split(s)
      decreases |s| - start
    {
      var dot := start + IndexOf(s[start..], DOT);
      ghost var _ := SplitStep(s, start);
      ghost var rest := Split(s[start..]);
      assert rest == [rest[0]] + rest[1..];
      parts := parts + [s[start..dot]];
      if dot == |s| {
        return;
      }
      start := dot + 1;
    }
  }

  /** `StructuredVersion::str`: a zero patch is not printed. */
  function StructuredStr(v: StructuredVersion): Bytes {
    ToString(v.major) + [DOT] + ToString(v.minor) + if v.patch != 0 then [DOT] + ToString(v.patch) else []
  }

  lemma SplitCons(u: Bytes, w: Bytes)
    requires DOT !in u
    ensures Split(u + [DOT] + w) == [u] + Split(w)
  {
    var s := u + [DOT] + w;
    assert s == u + ([DOT] + w);
    IndexOfSkips(u, [DOT] + w, DOT);
    assert s[..|u|] == u && s[|u| + 1..] == w;
  }

  lemma StructuredRoundTrip(v: StructuredVersion)
    requires v.major >= 0 && v.minor >= 0 && v.patch >= 0
    ensures ParseStructured(StructuredStr(v)) == Some(v)
  {
    hide Split, Parsed, Digits;
    var a, b, c := ToString(v.major), ToString(v.minor), ToString(v.patch);
    DigitCharacters(v.major);
    DigitCharacters(v.minor);
    DigitCharacters(v.patch);
    SplitOfOne(b);
    SplitOfOne(c);
    SplitCons(b, c);
    if v.patch != 0 {
      assert StructuredStr(v) == a + [DOT] + (b + [DOT] + c);
      SplitCons(a, b + [DOT] + c);
    } else {
      assert StructuredStr(v) == a + [DOT] + b;
      SplitCons(a, b);
    }
  }

  /** In a structured version text the numerals are major, minor and patch; the last two may be left
      out. */
  lemma StructuredInOrder(x: Bytes, y: Bytes, z: Bytes)
    requires Parsed(x).Some? && Parsed(y).Some? && Parsed(z).Some?
    ensures ParseStructured(x) == Some(StructuredVersion(Parsed(x).value, 0, 0))
    ensures ParseStructured(x + [DOT] + y) == Some(StructuredVersion(Parsed(x).value, Parsed(y).value, 0))
    ensures ParseStructured(x + [DOT] + y + [DOT] + z) ==
      Some(StructuredVersion(Parsed(x).value, Parsed(y).value, Parsed(z).value))
  {
    hide Split, Parsed;
    ParsedCharacters(x);
    ParsedCharacters(y);
    ParsedCharacters(z);
    SplitOfOne(x);
    SplitOfOne(y);
    SplitOfOne(z);
    SplitCons(x, y);
    SplitCons(y, z);
    SplitCons(x, y + [DOT] + z);
    assert x + [DOT] + y + [DOT] + z == x + [DOT] + (y + [DOT] + z);
  }
}
