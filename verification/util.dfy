/** Option/Result wrappers and the handful of Rust `str` operations the
    installer relies on (trim, contains, replace, lines, join, ordering),
    written over `string` = `seq<char>` with Rust's semantics. */
module Util {

  datatype Option<+T> = None | Some(value: T) {
    /** `Option::or`: keep this value if present, otherwise take `other`. */
    function Or(other: Option<T>): Option<T> {
      if Some? then this else other
    }
  }

  datatype Result<+T, +E> = Ok(value: T) | Err(error: E)

  /** Collecting results in order, as `?` inside a loop does: every value
      when all succeed, otherwise the first error. */
  function AllOk<T, E(==)>(results: seq<Result<T, E>>): (r: Result<seq<T>, E>)
    ensures r.Err? <==> exists i :: 0 <= i < |results| && results[i].Err?
    ensures r.Ok? ==> |r.value| == |results| && forall i :: 0 <= i < |results| ==> r.value[i] == results[i].value
    ensures r.Err? ==> exists i :: 0 <= i < |results| && results[i].Err? && results[i].error == r.error
                                   && forall j :: 0 <= j < i ==> results[j].Ok?
    decreases |results|
  {
    if results == [] then Ok([])
    else if results[0].Err? then Err(results[0].error)
    else
      var rest := AllOk(results[1..]);
      assert forall i :: 0 < i < |results| ==> results[i] == results[1..][i - 1];
      if rest.Err? then
        var k :| 0 <= k < |results[1..]| && results[1..][k].Err? && results[1..][k].error == rest.error
                 && forall j :: 0 <= j < k ==> results[1..][j].Ok?;
        assert results[k + 1] == results[1..][k];
        Err(rest.error)
      else Ok([results[0].value] + rest.value)
  }

  /** The elements of `s` that lie in `keep`, in order. */
  ghost function Keep<T>(s: seq<T>, keep: iset<T>): seq<T>
    decreases |s|
  {
    if s == [] then [] else (if s[0] in keep then [s[0]] else []) + Keep(s[1..], keep)
  }

  lemma {:induction false} KeepConcat<T>(a: seq<T>, b: seq<T>, keep: iset<T>)
    ensures Keep(a + b, keep) == Keep(a, keep) + Keep(b, keep)
    decreases |a|
  {
    if a == [] {
      assert a + b == b;
    } else {
      KeepConcat(a[1..], b, keep);
      assert (a + b)[0] == a[0];
      assert (a + b)[1..] == a[1..] + b;
    }
  }

  /** Filtering a concatenation piecewise, for two filters at once. */
  lemma KeepStep<T>(a: seq<T>, b: seq<T>, c: seq<T>, d: seq<T>, keep: iset<T>, keep': iset<T>)
    requires Keep(a, keep) == Keep(c, keep') && Keep(b, keep) == Keep(d, keep')
    ensures Keep(a + b, keep) == Keep(c + d, keep')
  {
    KeepConcat(a, b, keep);
    KeepConcat(c, d, keep');
  }

  lemma KeepSingle<T>(x: T, keep: iset<T>)
    ensures Keep([x], keep) == if x in keep then [x] else []
  {
    assert [x][1..] == [];
  }

  lemma {:induction false} KeepNone<T>(s: seq<T>, keep: iset<T>)
    requires forall i :: 0 <= i < |s| ==> s[i] !in keep
    ensures Keep(s, keep) == []
    decreases |s|
  {
    if s != [] {
      KeepNone(s[1..], keep);
    }
  }

  // ---------------------------------------------------------------------
  // Whitespace and trimming (Rust `char::is_whitespace`, `str::trim`)
  // ---------------------------------------------------------------------

  /** The Unicode White_Space property, which is what Rust's `trim` strips. */
  predicate IsWhitespace(c: char) {
    || ('\U{0009}' <= c <= '\U{000D}')
    || c == ' ' || c == '\U{0085}' || c == '\U{00A0}' || c == '\U{1680}'
    || ('\U{2000}' <= c <= '\U{200A}')
    || c == '\U{2028}' || c == '\U{2029}' || c == '\U{202F}' || c == '\U{205F}'
    || c == '\U{3000}'
  }

  /** Empty, or nothing but whitespace. */
  predicate IsBlank(s: string) {
    forall i :: 0 <= i < |s| ==> IsWhitespace(s[i])
  }

  function TrimStart(s: string): (r: string)
    ensures |r| <= |s| && r == s[|s| - |r|..]
    ensures |r| > 0 ==> !IsWhitespace(r[0])
    ensures IsBlank(s[..|s| - |r|])
  {
    if |s| > 0 && IsWhitespace(s[0]) then
      var r := TrimStart(s[1..]);
      assert s[1..][..|s[1..]| - |r|] == s[1..|s| - |r|];
      r
    else s
  }

  function TrimEnd(s: string): (r: string)
    ensures |r| <= |s| && r == s[..|r|]
    ensures |r| > 0 ==> !IsWhitespace(r[|r| - 1])
    ensures IsBlank(s[|r|..])
  {
    if |s| > 0 && IsWhitespace(s[|s| - 1]) then
      var r := TrimEnd(s[..|s| - 1]);
      assert s[..|s| - 1][|r|..] == s[|r|..|s| - 1];
      assert s[|r|..] == s[|r|..|s| - 1] + [s[|s| - 1]];
      r
    else s
  }

  function Trim(s: string): string {
    TrimEnd(TrimStart(s))
  }

  lemma {:induction false} TrimStartBlank(s: string)
    ensures IsBlank(s) ==> TrimStart(s) == []
    ensures !IsBlank(s) ==> |TrimStart(s)| > 0
    decreases |s|
  {
    if |s| > 0 && IsWhitespace(s[0]) {
      TrimStartBlank(s[1..]);
      assert IsBlank(s) <==> IsBlank(s[1..]) by {
        assert forall i :: 0 < i < |s| ==> s[i] == s[1..][i - 1];
      }
    }
  }

  /** Trimming the end never empties a string that starts with a
      non-whitespace character. */
  lemma {:induction false} TrimEndKeepsFirst(s: string)
    requires |s| > 0 && !IsWhitespace(s[0])
    ensures |TrimEnd(s)| > 0
    decreases |s|
  {
    if |s| > 1 && IsWhitespace(s[|s| - 1]) {
      TrimEndKeepsFirst(s[..|s| - 1]);
    }
  }

  /** `s.trim().is_empty()` is exactly "s is blank". */
  lemma TrimEmptyIffBlank(s: string)
    ensures Trim(s) == [] <==> IsBlank(s)
  {
    TrimStartBlank(s);
    if !IsBlank(s) {
      TrimEndKeepsFirst(TrimStart(s));
    }
  }

  // ---------------------------------------------------------------------
  // Prefixes, suffixes, substrings
  // ---------------------------------------------------------------------

  predicate StartsWith(s: string, p: string) {
    |p| <= |s| && s[..|p|] == p
  }

  predicate EndsWith(s: string, p: string) {
    |p| <= |s| && s[|s| - |p|..] == p
  }

  /** `str::contains`: some position of `s` starts an occurrence of `p`. */
  predicate Contains(s: string, p: string) {
    exists i :: 0 <= i <= |s| - |p| && StartsWith(s[i..], p)
  }

  lemma ContainsSuffix(s: string, p: string)
    ensures Contains(s + p, p)
  {
    assert StartsWith((s + p)[|s|..], p);
  }

  lemma ContainsPrefix(p: string, s: string)
    ensures Contains(p + s, p)
  {
    assert StartsWith((p + s)[0..], p);
  }

  /** An occurrence inside `b` is an occurrence inside `a + b`. */
  lemma ContainsRight(a: string, b: string, p: string)
    requires Contains(b, p)
    ensures Contains(a + b, p)
  {
    var i :| 0 <= i <= |b| - |p| && StartsWith(b[i..], p);
    assert (a + b)[|a| + i..] == b[i..];
  }

  /** An occurrence inside `a` is an occurrence inside `a + b`. */
  lemma ContainsLeft(a: string, b: string, p: string)
    requires Contains(a, p)
    ensures Contains(a + b, p)
  {
    var i :| 0 <= i <= |a| - |p| && StartsWith(a[i..], p);
    assert (a + b)[i..][..|p|] == a[i..][..|p|];
  }

  /** Trimming the end of `p + q` cannot eat into `p` when `p` ends with a
      non-whitespace character. */
  lemma {:induction false} TrimEndKeepsPrefix(p: string, q: string)
    requires |p| > 0 && !IsWhitespace(p[|p| - 1])
    ensures StartsWith(TrimEnd(p + q), p)
    decreases |q|
  {
    if q == [] {
      assert p + q == p;
    } else if IsWhitespace(q[|q| - 1]) {
      assert (p + q)[..|p + q| - 1] == p + q[..|q| - 1];
      TrimEndKeepsPrefix(p, q[..|q| - 1]);
    }
  }

  /** An occurrence in the tail of `s` is an occurrence in `s`. */
  lemma ContainsTail(s: string, p: string)
    requires |s| > 0
    ensures Contains(s[1..], p) ==> Contains(s, p)
  {
    if Contains(s[1..], p) {
      ContainsRight([s[0]], s[1..], p);
      assert [s[0]] + s[1..] == s;
    }
  }

  /** A string that starts with `p`, where `p` neither begins nor ends with
      whitespace, still starts with `p` after trimming. */
  lemma TrimKeepsPrefix(s: string, p: string)
    requires StartsWith(s, p) && |p| > 0
    requires !IsWhitespace(p[0]) && !IsWhitespace(p[|p| - 1])
    ensures StartsWith(Trim(s), p)
  {
    assert s[0] == p[0];
    assert TrimStart(s) == s;
    assert s == p + s[|p|..];
    TrimEndKeepsPrefix(p, s[|p|..]);
  }

  // ---------------------------------------------------------------------
  // Case folding (ASCII), `trim_start_matches`, `eq_ignore_ascii_case`
  // ---------------------------------------------------------------------

  function AsciiLower(c: char): char {
    if 'A' <= c <= 'Z' then (c as int + 32) as char else c
  }

  function ToLower(s: string): (r: string)
    ensures |r| == |s|
    ensures forall i :: 0 <= i < |s| ==> r[i] == AsciiLower(s[i])
  {
    if s == [] then [] else [AsciiLower(s[0])] + ToLower(s[1..])
  }

  predicate EqIgnoreAsciiCase(a: string, b: string) {
    |a| == |b| && forall i :: 0 <= i < |a| ==> AsciiLower(a[i]) == AsciiLower(b[i])
  }

  /** `s.trim_start_matches(c)`: drop every leading copy of `c`. */
  function TrimStartChar(s: string, c: char): (r: string)
    ensures |r| <= |s| && r == s[|s| - |r|..]
    ensures |r| > 0 ==> r[0] != c
    ensures forall i :: 0 <= i < |s| - |r| ==> s[i] == c
  {
    if |s| > 0 && s[0] == c then TrimStartChar(s[1..], c) else s
  }

  // ---------------------------------------------------------------------
  // `str::replace`
  // ---------------------------------------------------------------------

  /** Rust's `str::replace`: every non-overlapping occurrence of `p`, scanning
      left to right, becomes `r`. With an empty pattern Rust inserts `r`
      before every character and at the end. */
  function Replace(s: string, p: string, r: string): string
    decreases |s|
  {
    if p == [] then
      if s == [] then r else r + [s[0]] + Replace(s[1..], p, r)
    else if |s| < |p| then s
    else if s[..|p|] == p then r + Replace(s[|p|..], p, r)
    else [s[0]] + Replace(s[1..], p, r)
  }

  /** A non-empty pattern that does not occur leaves the text unchanged. */
  lemma {:induction false} ReplaceAbsent(s: string, p: string, r: string)
    requires p != [] && !Contains(s, p)
    ensures Replace(s, p, r) == s
    decreases |s|
  {
    if |s| >= |p| {
      assert s[..|p|] != p by {
        assert StartsWith(s[0..], p) ==> Contains(s, p);
      }
      ContainsTail(s, p);
      ReplaceAbsent(s[1..], p, r);
    }
  }

  /** Replacing a non-empty pattern by itself changes nothing. */
  lemma {:induction false} ReplaceSelf(s: string, p: string)
    requires p != []
    ensures Replace(s, p, p) == s
    decreases |s|
  {
    if |s| >= |p| {
      if s[..|p|] == p {
        ReplaceSelf(s[|p|..], p);
        assert s == s[..|p|] + s[|p|..];
      } else {
        ReplaceSelf(s[1..], p);
      }
    }
  }

  /** A pattern longer than the text, or as long but different, does not
      occur in it. */
  lemma NotContainedWhenShort(s: string, p: string)
    requires |s| < |p| || (|s| == |p| && s != p)
    ensures !Contains(s, p)
  {
    if |s| == |p| {
      forall i | 0 <= i <= |s| - |p| ensures !StartsWith(s[i..], p) {
        assert s[i..] == s;
      }
    }
  }

  /** Such a pattern is therefore never replaced. */
  lemma ReplaceInShorter(s: string, p: string, r: string)
    requires |s| < |p| || (|s| == |p| && s != p)
    ensures Replace(s, p, r) == s
  {
    NotContainedWhenShort(s, p);
    ReplaceAbsent(s, p, r);
  }

  /** A text shorter than a non-empty pattern is left alone. */
  lemma ReplaceShort(s: string, p: string, r: string)
    requires p != [] && |s| < |p|
    ensures Replace(s, p, r) == s
  {
  }

  /** Where the pattern does not start, the scan copies one character. */
  lemma ReplaceCons(c: char, u: string, p: string, r: string)
    requires p != [] && |u| + 1 >= |p| && ([c] + u)[..|p|] != p
    ensures Replace([c] + u, p, r) == [c] + Replace(u, p, r)
  {
    assert ([c] + u)[1..] == u;
  }

  /** A leading run without the pattern's first character is copied as is. */
  lemma {:induction false} ReplacePlainHead(a: string, t: string, p: string, r: string)
    requires p != [] && forall i :: 0 <= i < |a| ==> a[i] != p[0]
    ensures Replace(a + t, p, r) == a + Replace(t, p, r)
    decreases |a|
  {
    if a == [] {
      assert a + t == t;
    } else {
      var s := a + t;
      var a' := a[1..];
      assert forall i :: 0 <= i < |a'| ==> a'[i] == a[i + 1];
      ReplacePlainHead(a', t, p, r);
      if |s| < |p| {
        ReplaceShort(s, p, r);
        ReplaceShort(t, p, r);
      } else {
        assert a == [a[0]] + a';
        assert s == [a[0]] + (a' + t);
        assert s[..|p|][0] == a[0];
        ReplaceCons(a[0], a' + t, p, r);
      }
    }
  }

  /** A leading occurrence of the pattern becomes the replacement. */
  lemma ReplaceLeading(p: string, t: string, r: string)
    requires p != []
    ensures Replace(p + t, p, r) == r + Replace(t, p, r)
  {
    assert (p + t)[..|p|] == p && (p + t)[|p|..] == t;
  }

  /** A text that is exactly the pattern becomes exactly the replacement. */
  lemma ReplaceWhole(p: string, r: string)
    requires p != []
    ensures Replace(p, p, r) == r
  {
    assert p[..|p|] == p && p[|p|..] == [];
  }

  // ---------------------------------------------------------------------
  // `str::lines` and `join`
  // ---------------------------------------------------------------------

  /** Index of the first `c` in `s`, if any. */
  function IndexOf(s: string, c: char): (r: Option<nat>)
    ensures r.Some? ==> r.value < |s| && s[r.value] == c
    ensures r.Some? ==> forall i :: 0 <= i < r.value ==> s[i] != c
    ensures r.None? ==> forall i :: 0 <= i < |s| ==> s[i] != c
  {
    if s == [] then None
    else if s[0] == c then Some(0)
    else match IndexOf(s[1..], c)
      case None => None
      case Some(k) => Some(k + 1)
  }

  /** Rust's `str::lines`: split at `\n`, drop a `\r` that precedes the `\n`,
      and yield no empty final line for a trailing `\n`. */
  function Lines(s: string): (r: seq<string>)
    ensures forall i :: 0 <= i < |r| ==> '\n' !in r[i]
    decreases |s|
  {
    if s == [] then []
    else match IndexOf(s, '\n')
      case None => [s]
      case Some(k) =>
        var line := if k > 0 && s[k - 1] == '\r' then s[..k - 1] else s[..k];
        assert forall j :: 0 <= j < |line| ==> line[j] == s[j];
        [line] + Lines(s[k + 1..])
  }

  /** `parts.join(sep)`. */
  function Join(parts: seq<string>, sep: string): string
    decreases |parts|
  {
    if parts == [] then []
    else if |parts| == 1 then parts[0]
    else Join(parts[..|parts| - 1], sep) + sep + parts[|parts| - 1]
  }

  /** Joining from the front: the first part, the separator, the rest. */
  lemma {:induction false} JoinCons(a: string, rest: seq<string>, sep: string)
    requires rest != []
    ensures Join([a] + rest, sep) == a + sep + Join(rest, sep)
    decreases |rest|
  {
    var parts := [a] + rest;
    if |rest| == 1 {
      assert parts[..|parts| - 1] == [a];
    } else {
      var init := rest[..|rest| - 1];
      assert parts[..|parts| - 1] == [a] + init;
      JoinCons(a, init, sep);
      calc {
        Join(parts, sep);
        Join([a] + init, sep) + sep + rest[|rest| - 1];
        a + sep + Join(init, sep) + sep + rest[|rest| - 1];
        a + sep + Join(rest, sep);
      }
    }
  }

  lemma Join3(a: string, b: string, c: string, sep: string)
    ensures Join([a, b, c], sep) == a + sep + b + sep + c
  {
    var p := [a, b, c];
    assert p[..|p| - 1] == [a, b];
    assert [a, b][..1] == [a];
    assert Join([a, b], sep) == a + sep + b;
  }

  /** A character in neither the parts nor the separator is not in the join. */
  lemma {:induction false} JoinExcludes(parts: seq<string>, sep: string, c: char)
    requires forall i :: 0 <= i < |parts| ==> c !in parts[i]
    requires c !in sep
    ensures c !in Join(parts, sep)
    decreases |parts|
  {
    if |parts| > 1 {
      JoinExcludes(parts[..|parts| - 1], sep, c);
    }
  }

  // ---------------------------------------------------------------------
  // Decimal rendering and string ordering
  // ---------------------------------------------------------------------

  function DigitChar(d: nat): char
    requires d < 10
  {
    "0123456789"[d]
  }

  /** The digit character of `d` is the character `d` places after '0'. */
  lemma DigitCharValue(d: nat)
    requires d < 10
    ensures '0' <= DigitChar(d) <= '9'
    ensures DigitChar(d) as int - '0' as int == d
  {
  }

  lemma DigitCharOf(c: char)
    requires '0' <= c <= '9'
    ensures DigitChar(c as int - '0' as int) == c
  {
  }

  /** `n.to_string()` for a natural number. */
  function NatToString(n: nat): (r: string)
    ensures |r| > 0
    ensures forall i :: 0 <= i < |r| ==> '0' <= r[i] <= '9'
    decreases n
  {
    if n < 10 then [DigitChar(n)] else NatToString(n / 10) + [DigitChar(n % 10)]
  }

  /** Rust's `Ord` for `String`: lexicographic by code point (the same
      order as comparing the UTF-8 bytes). */
  predicate LexLe(a: string, b: string)
    decreases |a|
  {
    if a == [] then true
    else if b == [] then false
    else if a[0] != b[0] then a[0] < b[0]
    else LexLe(a[1..], b[1..])
  }

  predicate LexLt(a: string, b: string) {
    LexLe(a, b) && a != b
  }

  lemma {:induction false} LexLeTotal(a: string, b: string)
    ensures LexLe(a, b) || LexLe(b, a)
    decreases |a|
  {
    if a != [] && b != [] && a[0] == b[0] {
      LexLeTotal(a[1..], b[1..]);
    }
  }

  lemma {:induction false} LexLeAntisymmetric(a: string, b: string)
    requires LexLe(a, b) && LexLe(b, a)
    ensures a == b
    decreases |a|
  {
    if a != [] && b != [] {
      LexLeAntisymmetric(a[1..], b[1..]);
      assert a == [a[0]] + a[1..] && b == [b[0]] + b[1..];
    }
  }

  lemma {:induction false} LexLeTransitive(a: string, b: string, c: string)
    requires LexLe(a, b) && LexLe(b, c)
    ensures LexLe(a, c)
    decreases |a|
  {
    if a != [] && b != [] && c != [] && a[0] == b[0] && b[0] == c[0] {
      LexLeTransitive(a[1..], b[1..], c[1..]);
    }
  }

  lemma LexLtTransitive(a: string, b: string, c: string)
    requires LexLt(a, b) && LexLt(b, c)
    ensures LexLt(a, c)
  {
    LexLeTransitive(a, b, c);
    if a == c {
      LexLeAntisymmetric(a, b);
    }
  }

  predicate StrictlySorted(s: seq<string>) {
    forall i, j :: 0 <= i < j < |s| ==> LexLt(s[i], s[j])
  }

  /** Putting an element in front of a strictly sorted list keeps it
      strictly sorted when the element is below everything in the list. */
  lemma ConsSorted(h: string, t: seq<string>)
    requires StrictlySorted(t)
    requires forall y :: y in t ==> LexLt(h, y)
    ensures StrictlySorted([h] + t)
  {
    var r := [h] + t;
    forall i, j | 0 <= i < j < |r| ensures LexLt(r[i], r[j]) {
      assert r[j] == t[j - 1];
      if i > 0 {
        assert r[i] == t[i - 1];
      }
    }
  }

  /** Insert `x` into a strictly sorted list, keeping it strictly sorted and
      without duplicating an element that is already present. */
  function InsertSorted(x: string, s: seq<string>): (r: seq<string>)
    requires StrictlySorted(s)
    ensures StrictlySorted(r)
    ensures forall t :: t in r <==> t in s || t == x
    ensures x in s ==> r == s
    decreases |s|
  {
    if s == [] then [x]
    else if x == s[0] then s
    else if LexLe(x, s[0]) then
      forall y | y in s ensures LexLt(x, y) {
        if y != s[0] {
          var j :| 0 <= j < |s| && s[j] == y;
          LexLtTransitive(x, s[0], y);
        }
      }
      ConsSorted(x, s);
      [x] + s
    else
      LexLeTotal(x, s[0]);
      assert s == [s[0]] + s[1..];
      var rest := InsertSorted(x, s[1..]);
      forall y | y in rest ensures LexLt(s[0], y) {
        if y != x {
          var j :| 0 <= j < |s[1..]| && s[1..][j] == y;
          assert s[j + 1] == y;
        }
      }
      ConsSorted(s[0], rest);
      [s[0]] + rest
  }

  /** Rust's `Vec::sort` applied to a duplicate-free list of strings. */
  function SortStrings(s: seq<string>): (r: seq<string>)
    ensures StrictlySorted(r)
    ensures forall t :: t in r <==> t in s
    decreases |s|
  {
    if s == [] then []
    else
      assert s == s[..|s| - 1] + [s[|s| - 1]];
      InsertSorted(s[|s| - 1], SortStrings(s[..|s| - 1]))
  }
}
