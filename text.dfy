/**
 * The pieces of Python's `str` behaviour the engine relies on: `strip`,
 * `"sep".join`, `find`, `replace` of one character, `title` (over ASCII),
 * zero-padded decimal fields, and code-point ordering of strings as used
 * by `sorted`.
 */
module Text {

  import opened Basics

  /** Python's `str.isspace` for a single character. */
  predicate IsSpace(c: char) {
    ('\U{9}' <= c <= '\U{D}') || ('\U{1C}' <= c <= '\U{20}') || c == '\U{85}' || c == '\U{A0}'
    || c == '\U{1680}' || ('\U{2000}' <= c <= '\U{200A}') || c == '\U{2028}' || c == '\U{2029}'
    || c == '\U{202F}' || c == '\U{205F}' || c == '\U{3000}'
  }

  /** `s.lstrip()`: the longest suffix of `s` that does not start with whitespace. */
  function TrimStart(s: string): (r: string)
    ensures |r| <= |s| && r == s[|s| - |r|..]
    ensures forall k :: 0 <= k < |s| - |r| ==> IsSpace(s[k])
    ensures r == [] || !IsSpace(r[0])
  {
    if s == [] || !IsSpace(s[0]) then s else TrimStart(s[1..])
  }

  /** `s.rstrip()`: the longest prefix of `s` that does not end with whitespace. */
  function TrimEnd(s: string): (r: string)
    ensures |r| <= |s| && r == s[..|r|]
    ensures forall k :: |r| <= k < |s| ==> IsSpace(s[k])
    ensures r == [] || !IsSpace(r[|r| - 1])
  {
    if s == [] || !IsSpace(s[|s| - 1]) then s else TrimEnd(s[..|s| - 1])
  }

  /** `s.strip()`. */
  function Strip(s: string): string {
    TrimEnd(TrimStart(s))
  }

  /** A stripped string neither starts nor ends with whitespace, and is a slice of its input. */
  lemma StripIsTrimmed(s: string)
    ensures Strip(s) == [] || (!IsSpace(Strip(s)[0]) && !IsSpace(Strip(s)[|Strip(s)| - 1]))
    ensures Strip(s) == s[|s| - |TrimStart(s)|..|s| - |TrimStart(s)| + |Strip(s)|]
  {
  }

  /** Trailing whitespace can be removed only up to a non-space character. */
  lemma {:induction false} TrimEndAfter(h: string, t: string)
    requires h != [] && !IsSpace(h[|h| - 1])
    ensures TrimEnd(h + t) == h + TrimEnd(t)
  {
    if t == [] {
      assert h + t == h;
    } else if !IsSpace(t[|t| - 1]) {
      assert (h + t)[|h + t| - 1] == t[|t| - 1];
    } else {
      assert (h + t)[..|h + t| - 1] == h + t[..|t| - 1];
      TrimEndAfter(h, t[..|t| - 1]);
    }
  }

  /** Stripping text that starts with a word bounded by non-space characters keeps that word whole. */
  lemma StripAfter(h: string, t: string)
    requires h != [] && !IsSpace(h[0]) && !IsSpace(h[|h| - 1])
    ensures Strip(h + t) == h + TrimEnd(t)
  {
    assert (h + t)[0] == h[0];
    TrimEndAfter(h, t);
  }

  /** `sep.join(parts)`. */
  function Join(parts: seq<string>, sep: string): string {
    if parts == [] then "" else if |parts| == 1 then parts[0] else parts[0] + sep + Join(parts[1..], sep)
  }

  /** Joining one more part puts exactly one separator before it. */
  lemma {:induction false} JoinSnoc(parts: seq<string>, x: string, sep: string)
    requires parts != []
    ensures Join(parts + [x], sep) == Join(parts, sep) + sep + x
  {
    if |parts| == 1 {
      assert parts + [x] == [parts[0], x];
    } else {
      assert (parts + [x])[1..] == parts[1..] + [x];
      JoinSnoc(parts[1..], x, sep);
    }
  }

  /** Joining a part in front of others puts exactly one separator after it. */
  lemma JoinCons(x: string, parts: seq<string>, sep: string)
    requires parts != []
    ensures Join([x] + parts, sep) == x + (sep + Join(parts, sep))
  {
    assert ([x] + parts)[1..] == parts;
  }

  /** The index of the first occurrence of `c` in `s`. */
  function IndexOf(s: string, c: char): (r: Option<nat>)
    ensures r.None? ==> c !in s
    ensures r.Some? ==> r.value < |s| && s[r.value] == c && c !in s[..r.value]
  {
    if s == [] then None
    else if s[0] == c then Some(0)
    else
      match IndexOf(s[1..], c)
      case None => None
      case Some(i) => assert s[..i + 1] == [s[0]] + s[1..][..i]; Some(i + 1)
  }

  /** `s.split(c)` for a single separator character. */
  function Split(s: string, c: char): (r: seq<string>)
    decreases |s|
    ensures |r| >= 1
  {
    match IndexOf(s, c)
    case None => [s]
    case Some(i) => [s[..i]] + Split(s[i + 1..], c)
  }

  lemma IndexOfAfter(a: string, c: char, t: string)
    requires c !in a
    ensures IndexOf(a + [c] + t, c) == Some(|a|)
  {
    var s := a + [c] + t;
    assert s[|a|] == c;
    assert s[..|a|] == a;
  }

  /**
   * Splitting on the separator undoes the join, when no part contains the
   * separator.
   */
  lemma {:induction false} SplitJoin(parts: seq<string>, c: char)
    requires parts != []
    requires forall k :: 0 <= k < |parts| ==> c !in parts[k]
    ensures Split(Join(parts, [c]), c) == parts
  {
    if |parts| > 1 {
      var rest := Join(parts[1..], [c]);
      var s := parts[0] + [c] + rest;
      assert Join(parts, [c]) == s;
      IndexOfAfter(parts[0], c, rest);
      assert s[..|parts[0]|] == parts[0];
      assert s[|parts[0]| + 1..] == rest;
      assert Split(s, c) == [parts[0]] + Split(rest, c);
      SplitJoin(parts[1..], c);
      assert parts == [parts[0]] + parts[1..];
    } else {
      assert Join(parts, [c]) == parts[0];
      assert IndexOf(parts[0], c).None?;
    }
  }

  /** `s.endswith(suffix)`. */
  predicate EndsWith(s: string, suffix: string) {
    |suffix| <= |s| && s[|s| - |suffix|..] == suffix
  }

  /** `pat` occurs in `s` starting at index `k`. */
  predicate OccursAt(s: string, pat: string, k: nat) {
    k + |pat| <= |s| && s[k..k + |pat|] == pat
  }

  /** `s.find(pat, from)`: the first index at or after `from` where `pat` occurs. */
  function Find(s: string, pat: string, from: nat): (r: Option<nat>)
    decreases |s| - from
    ensures r.Some? ==> from <= r.value && OccursAt(s, pat, r.value)
    ensures r.Some? ==> forall j :: from <= j < r.value ==> !OccursAt(s, pat, j)
    ensures r.None? ==> forall j :: from <= j ==> !OccursAt(s, pat, j)
  {
    if from + |pat| > |s| then None
    else if s[from..from + |pat|] == pat then Some(from)
    else Find(s, pat, from + 1)
  }

  /** `find` returns the first occurrence: one at `k` with none between `from` and `k` is the answer. */
  lemma FindFirst(s: string, pat: string, from: nat, k: nat)
    requires from <= k && OccursAt(s, pat, k)
    requires forall j :: from <= j < k ==> !OccursAt(s, pat, j)
    ensures Find(s, pat, from) == Some(k)
  {
  }

  /** `s.replace(a, b)` for single characters. */
  function ReplaceChar(s: string, a: char, b: char): (r: string)
    ensures |r| == |s|
    ensures a != b ==> a !in r
    ensures forall i :: 0 <= i < |s| && s[i] == a ==> r[i] == b
    ensures forall i :: 0 <= i < |s| && s[i] != a ==> r[i] == s[i]
  {
    seq(|s|, i requires 0 <= i < |s| => if s[i] == a then b else s[i])
  }

  predicate IsUpper(c: char) { 'A' <= c <= 'Z' }
  predicate IsLower(c: char) { 'a' <= c <= 'z' }
  /** Cased characters, restricted to ASCII letters. */
  predicate IsCased(c: char) { IsUpper(c) || IsLower(c) }

  /** `c.upper()` on ASCII: a lower-case letter becomes its capital, anything else is kept. */
  function Upper(c: char): (r: char)
    ensures IsCased(r) <==> IsCased(c)
    ensures !IsCased(c) ==> r == c
  {
    if IsLower(c) then (c as int - 32) as char else c
  }

  /** `c.lower()` on ASCII: a capital becomes its lower-case letter, anything else is kept. */
  function Lower(c: char): (r: char)
    ensures IsCased(r) <==> IsCased(c)
    ensures !IsCased(c) ==> r == c
  {
    if IsUpper(c) then (c as int + 32) as char else c
  }

  /** `s.title()`: the loop of CPython's title-casing, carrying whether the previous character was cased. */
  function TitleFrom(s: string, previousCased: bool): string {
    if s == [] then []
    else [if previousCased then Lower(s[0]) else Upper(s[0])] + TitleFrom(s[1..], IsCased(s[0]))
  }

  function Title(s: string): string {
    TitleFrom(s, false)
  }

  /** Title-casing upper-cases exactly the characters that do not follow a cased one, and lower-cases the rest. */
  lemma {:induction false} TitleFromAt(s: string, previousCased: bool)
    ensures |TitleFrom(s, previousCased)| == |s|
    ensures forall i :: 0 <= i < |s| ==>
      TitleFrom(s, previousCased)[i] ==
        if (if i == 0 then previousCased else IsCased(s[i - 1])) then Lower(s[i]) else Upper(s[i])
  {
    if s != [] {
      TitleFromAt(s[1..], IsCased(s[0]));
      var r := TitleFrom(s, previousCased);
      forall i | 1 <= i < |s|
        ensures r[i] == if IsCased(s[i - 1]) then Lower(s[i]) else Upper(s[i])
      {
        assert r[i] == TitleFrom(s[1..], IsCased(s[0]))[i - 1];
        assert s[1..][i - 1] == s[i];
        if i >= 2 {
          assert s[1..][i - 2] == s[i - 1];
        }
      }
    }
  }

  lemma TitleAt(s: string)
    ensures |Title(s)| == |s|
    ensures forall i :: 0 <= i < |s| ==>
      Title(s)[i] == if i > 0 && IsCased(s[i - 1]) then Lower(s[i]) else Upper(s[i])
  {
    TitleFromAt(s, false);
  }

  function Digit(d: nat): char
    requires d < 10
  {
    "0123456789"[d]
  }

  predicate IsDigit(c: char) { '0' <= c <= '9' }

  /** The low `width` decimal digits of `n`, most significant first (a zero-padded field). */
  function ZeroPad(n: nat, width: nat): (r: string)
    ensures |r| == width
    ensures forall i :: 0 <= i < |r| ==> IsDigit(r[i])
  {
    if width == 0 then "" else ZeroPad(n / 10, width - 1) + [Digit(n % 10)]
  }

  function DecimalValue(s: string): nat
    requires forall i :: 0 <= i < |s| ==> IsDigit(s[i])
  {
    if s == [] then 0 else assert IsDigit(s[|s| - 1]); 10 * DecimalValue(s[..|s| - 1]) + (s[|s| - 1] as int - '0' as int)
  }

  /** A padded field of a number that fits its width reads back as that number. */
  lemma {:induction false} ZeroPadValue(n: nat, width: nat, bound: nat)
    requires bound == Pow10(width) && n < bound
    ensures DecimalValue(ZeroPad(n, width)) == n
  {
    if width > 0 {
      var r := ZeroPad(n, width);
      assert r[..|r| - 1] == ZeroPad(n / 10, width - 1);
      ZeroPadValue(n / 10, width - 1, Pow10(width - 1));
    }
  }

  /** `n` with its `m` lowest decimal digits removed. */
  function DropDigits(n: nat, m: nat): nat {
    if m == 0 then n else DropDigits(n / 10, m - 1)
  }

  /** Truncating a padded field keeps its leading digits: those of the number with its low digits removed. */
  lemma {:induction false} ZeroPadTake(n: nat, width: nat, k: nat)
    requires k <= width
    ensures ZeroPad(n, width)[..k] == ZeroPad(DropDigits(n, width - k), k)
    decreases width
  {
    if k < width {
      ZeroPadTake(n / 10, width - 1, k);
      assert ZeroPad(n, width)[..k] == ZeroPad(n / 10, width - 1)[..k];
    }
  }

  function Pow10(k: nat): (p: nat)
    ensures p >= 1
  {
    if k == 0 then 1 else 10 * Pow10(k - 1)
  }

  /** Python's string ordering: code point by code point, a proper prefix first. */
  predicate Less(a: string, b: string) {
    if a == [] then b != []
    else if b == [] then false
    else if a[0] != b[0] then a[0] < b[0]
    else Less(a[1..], b[1..])
  }

  lemma {:induction false} LessIrreflexive(a: string)
    ensures !Less(a, a)
  {
    if a != [] {
      LessIrreflexive(a[1..]);
    }
  }

  lemma {:induction false} LessTransitive(a: string, b: string, c: string)
    requires Less(a, b) && Less(b, c)
    ensures Less(a, c)
  {
    if a != [] && b != [] && c != [] && a[0] == b[0] && b[0] == c[0] {
      LessTransitive(a[1..], b[1..], c[1..]);
    }
  }

  lemma {:induction false} LessTotal(a: string, b: string)
    requires a != b
    ensures Less(a, b) != Less(b, a)
  {
    if a != [] && b != [] && a[0] == b[0] {
      assert a == [a[0]] + a[1..] && b == [b[0]] + b[1..];
      LessTotal(a[1..], b[1..]);
    }
  }

  predicate StrictlySorted(s: seq<string>) {
    forall i, j :: 0 <= i < j < |s| ==> Less(s[i], s[j])
  }

  function Elems(s: seq<string>): set<string> {
    set x | x in s
  }

  predicate IsLeast(m: string, s: set<string>) {
    m in s && forall y :: y in s && y != m ==> Less(m, y)
  }

  lemma {:induction false} LeastExists(s: set<string>)
    requires s != {}
    ensures exists m :: IsLeast(m, s)
    decreases |s|
  {
    var x :| x in s;
    if s != {x} {
      LeastExists(s - {x});
      var m :| IsLeast(m, s - {x});
      if Less(x, m) {
        forall y | y in s && y != x ensures Less(x, y) {
          if y != m { LessTransitive(x, m, y); }
        }
        assert IsLeast(x, s);
      } else {
        LessTotal(x, m);
        assert IsLeast(m, s);
      }
    } else {
      assert IsLeast(x, s);
    }
  }

  lemma ElemsEmpty(s: seq<string>)
    ensures Elems(s) == {} <==> s == []
  {
    if s != [] {
      assert s[0] in Elems(s);
    }
  }

  lemma ElemsSnoc(r: seq<string>, m: string)
    ensures Elems(r + [m]) == Elems(r) + {m}
  {
    assert forall x :: x in r + [m] <==> x in r || x == m;
  }

  lemma ConsSorted(m: string, rest: seq<string>)
    requires StrictlySorted(rest) && forall j :: 0 <= j < |rest| ==> Less(m, rest[j])
    ensures StrictlySorted([m] + rest)
  {
    var r := [m] + rest;
    forall i, j | 0 <= i < j < |r| ensures Less(r[i], r[j]) {
      assert r[j] == rest[j - 1];
      if i > 0 {
        assert r[i] == rest[i - 1];
      }
    }
  }

  /** What `sorted` returns for a set of distinct names. */
  ghost function SortedOf(s: set<string>): (r: seq<string>)
    ensures StrictlySorted(r) && Elems(r) == s
    decreases |s|
  {
    if s == {} then []
    else
      LeastExists(s);
      var m :| IsLeast(m, s);
      var rest := SortedOf(s - {m});
      assert forall j :: 0 <= j < |rest| ==> rest[j] in s - {m};
      ConsSorted(m, rest);
      assert forall x :: x in [m] + rest <==> x == m || x in rest;
      assert Elems([m] + rest) == {m} + Elems(rest);
      [m] + rest
  }

  /** There is only one strictly sorted arrangement of a set of names. */
  lemma {:induction false} SortedUnique(a: seq<string>, b: seq<string>)
    requires StrictlySorted(a) && StrictlySorted(b) && Elems(a) == Elems(b)
    ensures a == b
    decreases |a|
  {
    if a != [] && b != [] {
      assert a[0] in Elems(b) && b[0] in Elems(a);
      var i :| 0 <= i < |a| && a[i] == b[0];
      var j :| 0 <= j < |b| && b[j] == a[0];
      if a[0] != b[0] {
        LessTotal(a[0], b[0]);
        assert false;
      }
      forall x ensures x in Elems(a[1..]) <==> x in Elems(b[1..]) {
        if x in Elems(a[1..]) {
          var i :| 1 <= i < |a| && a[i] == x;
          assert Less(a[0], x);
          LessIrreflexive(x);
          assert x in Elems(b) && x != b[0];
        }
        if x in Elems(b[1..]) {
          var j :| 1 <= j < |b| && b[j] == x;
          assert Less(b[0], x);
          LessIrreflexive(x);
          assert x in Elems(a) && x != a[0];
        }
      }
      SortedUnique(a[1..], b[1..]);
      assert a == [a[0]] + a[1..] && b == [b[0]] + b[1..];
    } else {
      ElemsEmpty(a);
      ElemsEmpty(b);
    }
  }

  /** Moving the least remaining name to the end keeps the result sorted and below what remains. */
  lemma SortStep(r: seq<string>, rest: set<string>, names: set<string>, m: string)
    requires StrictlySorted(r) && Elems(r) + rest == names && Elems(r) !! rest
    requires forall i, y :: 0 <= i < |r| && y in rest ==> Less(r[i], y)
    requires IsLeast(m, rest)
    ensures StrictlySorted(r + [m]) && Elems(r + [m]) + (rest - {m}) == names && Elems(r + [m]) !! (rest - {m})
    ensures forall i, y :: 0 <= i < |r + [m]| && y in rest - {m} ==> Less((r + [m])[i], y)
  {
    ElemsSnoc(r, m);
    var r2 := r + [m];
    forall i, j | 0 <= i < j < |r2| ensures Less(r2[i], r2[j]) {
      assert r2[i] == r[i];
      if j == |r| {
        assert r2[j] == m;
      } else {
        assert r2[j] == r[j];
      }
    }
    forall i, y | 0 <= i < |r2| && y in rest - {m} ensures Less(r2[i], y) {
      if i < |r| {
        assert r2[i] == r[i];
      } else {
        assert r2[i] == m;
      }
    }
  }

  /** `sorted(names)`: repeatedly moves the least remaining name to the end of the result. */
  method SortNames(names: set<string>) returns (r: seq<string>)
    ensures StrictlySorted(r) && Elems(r) == names
    ensures r == SortedOf(names)
  {
    r := [];
    var rest := names;
    while rest != {}
      invariant StrictlySorted(r)
      invariant Elems(r) + rest == names && Elems(r) !! rest
      invariant forall i, y :: 0 <= i < |r| && y in rest ==> Less(r[i], y)
      decreases |rest|
    {
      LeastExists(rest);
      var m :| IsLeast(m, rest);
      SortStep(r, rest, names, m);
      r := r + [m];
      rest := rest - {m};
    }
    SortedUnique(r, SortedOf(names));
  }
}
