/**
 * The parts of `pathlib.PurePosixPath` the engine uses: the final component
 * of a path (`name`), its last extension (`suffix`) and the name without it
 * (`stem`).
 */
module Paths {

  import opened Basics

  /** The index of the last occurrence of `c` in `s`. */
  function LastIndex(s: string, c: char): (r: Option<nat>)
    ensures r.None? ==> c !in s
    ensures r.Some? ==> r.value < |s| && s[r.value] == c && c !in s[r.value + 1..]
  {
    if s == [] then None
    else if s[|s| - 1] == c then Some(|s| - 1)
    else
      var r := LastIndex(s[..|s| - 1], c);
      assert r.Some? ==> s[r.value + 1..] == s[..|s| - 1][r.value + 1..] + [s[|s| - 1]];
      assert r.None? ==> s == s[..|s| - 1] + [s[|s| - 1]];
      r
  }

  /**
   * `PurePosixPath(p).name`: the last component once empty components and
   * `.` components are dropped; the empty string when there is none.
   */
  function Name(p: string): (r: string)
    decreases |p|
    ensures '/' !in r && r != "."
    ensures '/' !in p && p != "." ==> r == p
  {
    match LastIndex(p, '/')
    case None => if p == "." then "" else p
    case Some(i) =>
      var tail := p[i + 1..];
      if tail == "" || tail == "." then Name(p[..i]) else tail
  }

  /** The index of the dot that starts the extension of `name`, when it has one. */
  function ExtensionDot(name: string): (r: Option<nat>)
    ensures r.Some? ==> 0 < r.value < |name| - 1 && name[r.value] == '.' && '.' !in name[r.value + 1..]
    ensures r.Some? <==> LastIndex(name, '.').Some? && 0 < LastIndex(name, '.').value < |name| - 1
    ensures r.Some? ==> r.value == LastIndex(name, '.').value
  {
    match LastIndex(name, '.')
    case Some(i) => if 0 < i < |name| - 1 then Some(i) else None
    case None => None
  }

  /** `PurePosixPath(p).suffix`: the last extension of the name, dot included, or "". */
  function Suffix(p: string): (r: string)
    ensures r == "" || (|r| >= 2 && r[0] == '.' && '.' !in r[1..])
  {
    var n := Name(p);
    match ExtensionDot(n)
    case Some(i) => n[i..]
    case None => ""
  }

  /** `PurePosixPath(p).stem`: the name with its last extension removed. */
  function Stem(p: string): (r: string)
    ensures r + Suffix(p) == Name(p)
    ensures r == Name(p) <==> Suffix(p) == ""
    ensures '/' !in r
  {
    var n := Name(p);
    match ExtensionDot(n)
    case Some(i) => n[..i]
    case None => n
  }

  /** A name whose only dot, if any, is its first character is its own stem. */
  lemma StemWithoutExtension(p: string)
    requires Name(p) == "" || '.' !in Name(p)[1..]
    ensures Stem(p) == Name(p)
  {
  }

  /**
   * The stem drops exactly the text from the last dot of the final
   * component on, when that dot is neither its first nor its last
   * character; any other name is its own stem.
   */
  lemma StemDropsLastExtension(p: string)
    ensures var n := Name(p); var dot := LastIndex(n, '.');
      if dot.Some? && 0 < dot.value < |n| - 1 then
        Stem(p) == n[..dot.value] && Suffix(p) == n[dot.value..] && '.' !in Suffix(p)[1..]
      else
        Stem(p) == n && Suffix(p) == ""
  {
  }
}
