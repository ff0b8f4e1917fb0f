/** Semantic Versioning 2.0.0 as the installer uses it: parsing a tag into a
    version (section 2 for the core, section 9 for pre-release identifiers)
    and the precedence order of section 11. */
module SemVer {
  import opened Util

  /** A pre-release identifier: digits only (compared numerically) or
      alphanumerics and hyphens (compared in ASCII order). */
  datatype Identifier = Numeric(n: nat) | Alphanumeric(text: string)

  /** MAJOR.MINOR.PATCH with an optional list of pre-release identifiers;
      an empty list is a normal (release) version. */
  datatype Version = Version(major: nat, minor: nat, patch: nat, pre: seq<Identifier>)

  /** Core version numbers are 64-bit unsigned integers in the parser. */
  const U64Limit: nat := 0x1_0000_0000_0000_0000

  // ---------------------------------------------------------------------
  // Digits and identifier characters
  // ---------------------------------------------------------------------

  predicate IsDigit(c: char) {
    '0' <= c <= '9'
  }

  predicate IsIdentChar(c: char) {
    IsDigit(c) || ('a' <= c <= 'z') || ('A' <= c <= 'Z') || c == '-'
  }

  predicate AllDigits(s: string) {
    forall i :: 0 <= i < |s| ==> IsDigit(s[i])
  }

  /** Decimal value of a string of digits. */
  function DigitsValue(s: string): nat
    requires AllDigits(s)
    decreases |s|
  {
    if s == [] then 0
    else DigitsValue(s[..|s| - 1]) * 10 + (s[|s| - 1] as int - '0' as int)
  }

  /** Numeric identifiers must not have leading zeros (sections 2 and 9). */
  predicate NoLeadingZero(s: string) {
    |s| == 1 || (|s| > 1 && s[0] != '0')
  }

  /** `s.split(c)`: the pieces between separators, empty pieces included.
      Joining them back with `c` gives `s`. */
  function Split(s: string, c: char): (r: seq<string>)
    ensures |r| > 0
    ensures forall i :: 0 <= i < |r| ==> c !in r[i]
    ensures Join(r, [c]) == s
    decreases |s|
  {
    match IndexOf(s, c)
      case None => [s]
      case Some(k) =>
        var rest := Split(s[k + 1..], c);
        SplitStep(s, k, c, rest);
        [s[..k]] + rest
  }

  /** One step of `Split`: the piece before the first separator, then the
      pieces of what follows it. */
  lemma SplitStep(s: string, k: nat, c: char, rest: seq<string>)
    requires k < |s| && s[k] == c && forall i :: 0 <= i < k ==> s[i] != c
    requires rest != [] && Join(rest, [c]) == s[k + 1..]
    requires forall i :: 0 <= i < |rest| ==> c !in rest[i]
    ensures Join([s[..k]] + rest, [c]) == s
    ensures forall i :: 0 <= i < |[s[..k]] + rest| ==> c !in ([s[..k]] + rest)[i]
  {
    assert c !in s[..k] by {
      assert forall j :: 0 <= j < k ==> s[..k][j] == s[j];
    }
    JoinCons(s[..k], rest, [c]);
    assert s == s[..k] + [c] + s[k + 1..];
  }

  /** Splitting a join undoes it when no part holds the separator. */
  lemma {:induction false} SplitJoin(parts: seq<string>, c: char)
    requires |parts| > 0
    requires forall i :: 0 <= i < |parts| ==> c !in parts[i]
    ensures Split(Join(parts, [c]), c) == parts
    decreases |parts|
  {
    if |parts| > 1 {
      var rest := parts[1..];
      assert parts == [parts[0]] + rest;
      JoinCons(parts[0], rest, [c]);
      var s := Join(parts, [c]);
      assert s == parts[0] + [c] + Join(rest, [c]);
      assert s[|parts[0]|] == c;
      assert IndexOf(s, c) == Some(|parts[0]|);
      assert s[..|parts[0]|] == parts[0];
      assert s[|parts[0]| + 1..] == Join(rest, [c]);
      SplitJoin(rest, c);
    }
  }

  // ---------------------------------------------------------------------
  // Printing: the canonical text of a version
  // ---------------------------------------------------------------------

  /** The text of a pre-release identifier. */
  function IdText(id: Identifier): string {
    match id
      case Numeric(n) => NatToString(n)
      case Alphanumeric(t) => t
  }

  function IdTexts(ids: seq<Identifier>): seq<string> {
    seq(|ids|, i requires 0 <= i < |ids| => IdText(ids[i]))
  }

  /** Identifiers the parser can produce: an alphanumeric identifier is
      non-empty, uses the identifier characters and is not all digits. */
  predicate ValidIdentifier(id: Identifier) {
    match id
      case Numeric(_) => true
      case Alphanumeric(t) => t != [] && (forall i :: 0 <= i < |t| ==> IsIdentChar(t[i])) && !AllDigits(t)
  }

  /** Versions the parser can produce. */
  predicate Valid(v: Version) {
    && v.major < U64Limit && v.minor < U64Limit && v.patch < U64Limit
    && forall i :: 0 <= i < |v.pre| ==> ValidIdentifier(v.pre[i])
  }

  function CoreText(major: nat, minor: nat, patch: nat): string {
    NatToString(major) + "." + NatToString(minor) + "." + NatToString(patch)
  }

  /** `Version::to_string` without build metadata. */
  function Print(v: Version): string {
    CoreText(v.major, v.minor, v.patch) + (if v.pre == [] then "" else "-" + Join(IdTexts(v.pre), "."))
  }

  // ---------------------------------------------------------------------
  // Parsing
  // ---------------------------------------------------------------------

  /** A rendered number is a canonical digit string with that value. */
  lemma {:induction false} RenderedIsCanonical(n: nat)
    ensures AllDigits(NatToString(n)) && NoLeadingZero(NatToString(n))
    ensures DigitsValue(NatToString(n)) == n
    ensures n > 0 ==> NatToString(n)[0] != '0'
    decreases n
  {
    var s := NatToString(n);
    if n < 10 {
      DigitCharValue(n);
      assert s[..0] == [];
    } else {
      var t := NatToString(n / 10);
      RenderedIsCanonical(n / 10);
      DigitCharValue(n % 10);
      assert s == t + [DigitChar(n % 10)];
      assert s[..|s| - 1] == t;
      assert s[0] == t[0];
    }
  }

  /** A non-empty digit string not starting with '0' has a positive value. */
  lemma {:induction false} LeadingDigitPositive(s: string)
    requires s != [] && AllDigits(s) && s[0] != '0'
    ensures DigitsValue(s) > 0
    decreases |s|
  {
    if |s| > 1 {
      LeadingDigitPositive(s[..|s| - 1]);
    }
  }

  /** A canonical digit string is the rendering of its value. */
  lemma {:induction false} CanonicalIsRendered(s: string)
    requires s != [] && AllDigits(s) && NoLeadingZero(s)
    ensures NatToString(DigitsValue(s)) == s
    decreases |s|
  {
    var last := s[|s| - 1];
    DigitCharOf(last);
    if |s| == 1 {
      assert s[..0] == [];
      assert s == [last];
    } else {
      var t := s[..|s| - 1];
      assert t[0] == s[0];
      CanonicalIsRendered(t);
      LeadingDigitPositive(t);
      var n := DigitsValue(s);
      assert n == DigitsValue(t) * 10 + (last as int - '0' as int);
      assert n / 10 == DigitsValue(t) && n % 10 == last as int - '0' as int;
      assert s == t + [last];
    }
  }

  /** A core component: non-empty digits, no leading zero, fits in u64.
      It accepts exactly the decimal renderings of the u64 values. */
  function ParseNumber(s: string): (r: Option<nat>)
    ensures r.Some? ==> r.value < U64Limit && NatToString(r.value) == s
    ensures r.None? ==> forall n: nat :: n < U64Limit ==> NatToString(n) != s
  {
    if s != [] && AllDigits(s) && NoLeadingZero(s) && DigitsValue(s) < U64Limit then
      CanonicalIsRendered(s);
      Some(DigitsValue(s))
    else
      NotRendered(s);
      None
  }

  lemma NotRendered(s: string)
    requires !(s != [] && AllDigits(s) && NoLeadingZero(s) && DigitsValue(s) < U64Limit)
    ensures forall n: nat :: n < U64Limit ==> NatToString(n) != s
  {
    forall n: nat | n < U64Limit ensures NatToString(n) != s {
      RenderedIsCanonical(n);
    }
  }

  /** Printing then parsing a u64 value gives it back. */
  lemma ParseNumberPrint(n: nat)
    requires n < U64Limit
    ensures ParseNumber(NatToString(n)) == Some(n)
  {
    RenderedIsCanonical(n);
  }

  /** A pre-release identifier; it accepts exactly the texts of the valid
      identifiers. */
  function ParseIdentifier(s: string): (r: Option<Identifier>)
    ensures r.Some? ==> ValidIdentifier(r.value) && IdText(r.value) == s
    ensures r.None? ==> forall id :: ValidIdentifier(id) ==> IdText(id) != s
  {
    if s == [] || !(forall i :: 0 <= i < |s| ==> IsIdentChar(s[i])) then
      NoIdentifier(s);
      None
    else if AllDigits(s) then
      if NoLeadingZero(s) then
        CanonicalIsRendered(s);
        Some(Numeric(DigitsValue(s)))
      else
        NoIdentifier(s);
        None
    else Some(Alphanumeric(s))
  }

  lemma NoIdentifier(s: string)
    requires s == [] || !(forall i :: 0 <= i < |s| ==> IsIdentChar(s[i])) || (AllDigits(s) && !NoLeadingZero(s))
    ensures forall id :: ValidIdentifier(id) ==> IdText(id) != s
  {
    forall id | ValidIdentifier(id) ensures IdText(id) != s {
      if id.Numeric? {
        RenderedIsCanonical(id.n);
      }
    }
  }

  /** Printing then parsing a valid identifier gives it back. */
  lemma ParseIdentifierPrint(id: Identifier)
    requires ValidIdentifier(id)
    ensures ParseIdentifier(IdText(id)) == Some(id)
  {
    if id.Numeric? {
      RenderedIsCanonical(id.n);
    }
  }

  /** Every part must be an identifier; the result lists them in order. */
  function ParseIdentifiers(parts: seq<string>): (r: Option<seq<Identifier>>)
    ensures r.Some? <==> forall i :: 0 <= i < |parts| ==> ParseIdentifier(parts[i]).Some?
    ensures r.Some? ==> |r.value| == |parts|
                        && forall i :: 0 <= i < |parts| ==> ParseIdentifier(parts[i]) == Some(r.value[i])
    decreases |parts|
  {
    if parts == [] then Some([])
    else
      assert forall i :: 0 < i < |parts| ==> parts[i] == parts[1..][i - 1];
      match (ParseIdentifier(parts[0]), ParseIdentifiers(parts[1..]))
        case (Some(id), Some(rest)) => Some([id] + rest)
        case _ => None
  }

  function ParseCore(s: string): (r: Option<(nat, nat, nat)>)
    ensures r.Some? ==> r.value.0 < U64Limit && r.value.1 < U64Limit && r.value.2 < U64Limit
                        && CoreText(r.value.0, r.value.1, r.value.2) == s
  {
    var parts := Split(s, '.');
    if |parts| != 3 then None
    else match (ParseNumber(parts[0]), ParseNumber(parts[1]), ParseNumber(parts[2]))
      case (Some(a), Some(b), Some(c)) =>
        assert parts == [parts[0], parts[1], parts[2]];
        Join3(parts[0], parts[1], parts[2], ".");
        Some((a, b, c))
      case _ => None
  }

  /** A version with a pre-release: the core before the first `-` and the
      dot-separated identifiers after it. */
  function ParseWithPre(core: string, pre: string): (r: Option<Version>)
    ensures r.Some? ==> Valid(r.value) && r.value.pre != [] && Print(r.value) == core + "-" + pre
  {
    match ParseCore(core)
      case None => None
      case Some((major, minor, patch)) =>
        var parts := Split(pre, '.');
        match ParseIdentifiers(parts)
          case None => None
          case Some(ids) =>
            assert IdTexts(ids) == parts;
            Some(Version(major, minor, patch, ids))
  }

  /** `Version::parse` restricted to MAJOR.MINOR.PATCH[-PRE]: build metadata
      (`+...`) is not accepted. The pre-release starts after the first `-`
      and may itself contain hyphens. What parses is a valid version whose
      canonical text is the input. */
  function Parse(s: string): (r: Option<Version>)
    ensures r.Some? ==> Valid(r.value) && Print(r.value) == s
  {
    if '+' in s then None
    else match IndexOf(s, '-')
      case None =>
        (match ParseCore(s)
           case None => None
           case Some((major, minor, patch)) => Some(Version(major, minor, patch, [])))
      case Some(k) =>
        assert s == s[..k] + "-" + s[k + 1..];
        ParseWithPre(s[..k], s[k + 1..])
  }

  /** The printed core parses back, and holds neither `-` nor `+`. */
  lemma ParseCorePrint(major: nat, minor: nat, patch: nat)
    requires major < U64Limit && minor < U64Limit && patch < U64Limit
    ensures ParseCore(CoreText(major, minor, patch)) == Some((major, minor, patch))
    ensures '-' !in CoreText(major, minor, patch) && '+' !in CoreText(major, minor, patch)
  {
    var nums := [NatToString(major), NatToString(minor), NatToString(patch)];
    var text := CoreText(major, minor, patch);
    forall i | 0 <= i < 3 ensures '.' !in nums[i] && '-' !in nums[i] && '+' !in nums[i] {
      RenderedIsCanonical([major, minor, patch][i]);
    }
    assert text == Join(nums, ".") by {
      Join3(nums[0], nums[1], nums[2], ".");
    }
    JoinExcludes(nums, ".", '-');
    JoinExcludes(nums, ".", '+');
    SplitJoin(nums, '.');
    ParseNumberPrint(major);
    ParseNumberPrint(minor);
    ParseNumberPrint(patch);
  }

  /** The printed identifier list parses back and holds no `+`. */
  lemma ParseIdentifiersPrint(pre: seq<Identifier>)
    requires pre != [] && forall i :: 0 <= i < |pre| ==> ValidIdentifier(pre[i])
    ensures Split(Join(IdTexts(pre), "."), '.') == IdTexts(pre)
    ensures ParseIdentifiers(IdTexts(pre)) == Some(pre)
    ensures '+' !in Join(IdTexts(pre), ".")
  {
    var texts := IdTexts(pre);
    forall i | 0 <= i < |texts| ensures '.' !in texts[i] && '+' !in texts[i] {
      if pre[i].Numeric? {
        RenderedIsCanonical(pre[i].n);
      } else {
        assert forall j :: 0 <= j < |texts[i]| ==> IsIdentChar(texts[i][j]);
      }
    }
    JoinExcludes(texts, ".", '+');
    SplitJoin(texts, '.');
    forall i | 0 <= i < |texts| ensures ParseIdentifier(texts[i]) == Some(pre[i]) {
      ParseIdentifierPrint(pre[i]);
    }
    var r := ParseIdentifiers(texts);
    assert r.Some?;
    assert r.value == pre;
  }

  /** The first `c` in `a + [c] + b`, when `a` has none, splits it into
      `a` and `b`. */
  lemma FirstSeparator(a: string, c: char, b: string)
    requires c !in a
    ensures IndexOf(a + [c] + b, c) == Some(|a|)
    ensures (a + [c] + b)[..|a|] == a && (a + [c] + b)[|a| + 1..] == b
  {
    var s := a + [c] + b;
    assert s[|a|] == c;
  }

  /** The printed core and identifier list of a version with a
      pre-release parse back. */
  lemma ParseWithPrePrint(v: Version)
    requires Valid(v) && v.pre != []
    ensures ParseWithPre(CoreText(v.major, v.minor, v.patch), Join(IdTexts(v.pre), ".")) == Some(v)
  {
    ParseCorePrint(v.major, v.minor, v.patch);
    ParseIdentifiersPrint(v.pre);
  }

  /** Printing then parsing a valid version gives it back, so `Parse` is a
      bijection between canonical texts and valid versions. */
  lemma ParsePrint(v: Version)
    requires Valid(v)
    ensures Parse(Print(v)) == Some(v)
  {
    var core := CoreText(v.major, v.minor, v.patch);
    ParseCorePrint(v.major, v.minor, v.patch);
    var s := Print(v);
    if v.pre == [] {
      assert s == core;
      assert IndexOf(s, '-').None?;
    } else {
      var tail := Join(IdTexts(v.pre), ".");
      ParseIdentifiersPrint(v.pre);
      ParseWithPrePrint(v);
      assert s == core + "-" + tail;
      assert '+' !in s;
      FirstSeparator(core, '-', tail);
      assert Parse(s) == ParseWithPre(core, tail);
    }
  }

  /** The canonical text of a valid version parses to that version; so a
      text that does not parse is the canonical text of no valid version. */
  lemma ParseComplete(s: string)
    ensures forall v :: Valid(v) && Print(v) == s ==> Parse(s) == Some(v)
  {
    forall v | Valid(v) && Print(v) == s ensures Parse(s) == Some(v) {
      ParsePrint(v);
    }
  }

  /** A printed version starts with a digit. */
  lemma PrintStartsWithDigit(v: Version)
    ensures |Print(v)| > 0 && IsDigit(Print(v)[0])
  {
    var n := NatToString(v.major);
    assert Print(v)[0] == n[0];
  }

  // ---------------------------------------------------------------------
  // Precedence (section 11)
  // ---------------------------------------------------------------------

  /** Numeric identifiers sort below alphanumeric ones. */
  predicate IdLe(a: Identifier, b: Identifier) {
    match (a, b)
      case (Numeric(x), Numeric(y)) => x <= y
      case (Numeric(_), Alphanumeric(_)) => true
      case (Alphanumeric(_), Numeric(_)) => false
      case (Alphanumeric(x), Alphanumeric(y)) => LexLe(x, y)
  }

  /** Identifier lists compare field by field; a prefix sorts first. */
  predicate IdsLe(a: seq<Identifier>, b: seq<Identifier>)
    decreases |a|
  {
    if a == [] then true
    else if b == [] then false
    else if a[0] != b[0] then IdLe(a[0], b[0])
    else IdsLe(a[1..], b[1..])
  }

  /** A release sorts above every pre-release of the same core. */
  predicate PreLe(a: seq<Identifier>, b: seq<Identifier>) {
    if a == [] then b == []
    else if b == [] then true
    else IdsLe(a, b)
  }

  /** `a <= b` in precedence order. */
  predicate Le(a: Version, b: Version) {
    if a.major != b.major then a.major < b.major
    else if a.minor != b.minor then a.minor < b.minor
    else if a.patch != b.patch then a.patch < b.patch
    else PreLe(a.pre, b.pre)
  }

  function Core(v: Version): (nat, nat, nat) {
    (v.major, v.minor, v.patch)
  }

  /** `a < b` in precedence order. */
  predicate Lt(a: Version, b: Version) {
    !Le(b, a)
  }

  lemma IdLeTotal(a: Identifier, b: Identifier)
    ensures IdLe(a, b) || IdLe(b, a)
  {
    if a.Alphanumeric? && b.Alphanumeric? {
      LexLeTotal(a.text, b.text);
    }
  }

  lemma IdLeAntisymmetric(a: Identifier, b: Identifier)
    requires IdLe(a, b) && IdLe(b, a)
    ensures a == b
  {
    if a.Alphanumeric? && b.Alphanumeric? {
      LexLeAntisymmetric(a.text, b.text);
    }
  }

  lemma IdLeTransitive(a: Identifier, b: Identifier, c: Identifier)
    requires IdLe(a, b) && IdLe(b, c)
    ensures IdLe(a, c)
  {
    if a.Alphanumeric? && b.Alphanumeric? && c.Alphanumeric? {
      LexLeTransitive(a.text, b.text, c.text);
    }
  }

  lemma {:induction false} IdsLeTotal(a: seq<Identifier>, b: seq<Identifier>)
    ensures IdsLe(a, b) || IdsLe(b, a)
    decreases |a|
  {
    if a != [] && b != [] {
      if a[0] != b[0] {
        IdLeTotal(a[0], b[0]);
      } else {
        IdsLeTotal(a[1..], b[1..]);
      }
    }
  }

  lemma {:induction false} IdsLeAntisymmetric(a: seq<Identifier>, b: seq<Identifier>)
    requires IdsLe(a, b) && IdsLe(b, a)
    ensures a == b
    decreases |a|
  {
    if a != [] && b != [] {
      if a[0] != b[0] {
        IdLeAntisymmetric(a[0], b[0]);
      } else {
        IdsLeAntisymmetric(a[1..], b[1..]);
        assert a == [a[0]] + a[1..] && b == [b[0]] + b[1..];
      }
    }
  }

  lemma {:induction false} IdsLeTransitive(a: seq<Identifier>, b: seq<Identifier>, c: seq<Identifier>)
    requires IdsLe(a, b) && IdsLe(b, c)
    ensures IdsLe(a, c)
    decreases |a|
  {
    if a != [] && b != [] && c != [] {
      if a[0] == b[0] && b[0] == c[0] {
        IdsLeTransitive(a[1..], b[1..], c[1..]);
      } else if a[0] != b[0] && b[0] != c[0] {
        IdLeTransitive(a[0], b[0], c[0]);
        if a[0] == c[0] {
          IdLeAntisymmetric(a[0], b[0]);
        }
      }
    }
  }

  /** Precedence is a total order on parsed versions. */
  lemma LeTotal(a: Version, b: Version)
    ensures Le(a, b) || Le(b, a)
  {
    IdsLeTotal(a.pre, b.pre);
  }

  lemma LeAntisymmetric(a: Version, b: Version)
    requires Le(a, b) && Le(b, a)
    ensures a == b
  {
    if a.pre != [] && b.pre != [] {
      IdsLeAntisymmetric(a.pre, b.pre);
    }
  }

  lemma LeTransitive(a: Version, b: Version, c: Version)
    requires Le(a, b) && Le(b, c)
    ensures Le(a, c)
  {
    if Core(a) == Core(b) == Core(c) && a.pre != [] && b.pre != [] && c.pre != [] {
      IdsLeTransitive(a.pre, b.pre, c.pre);
    }
  }

  /** `x <= prev < v` gives `x < v`. */
  lemma LeLtTransitive(x: Version, prev: Version, v: Version)
    requires Le(x, prev) && Lt(prev, v)
    ensures Lt(x, v) && Le(x, v)
  {
    LeTotal(prev, v);
    LeTransitive(x, prev, v);
    if Le(v, x) {
      LeTransitive(v, x, prev);
    }
  }
}
