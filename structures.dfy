/**
 * StructureLoader: reads the enabled example documents of the structure
 * directory, picks one at random and renders it as a fenced prompt section
 * (utils/load_structure.py).
 *
 * The structure directory is an input: a map from a file name relative to
 * the directory to the file's text.
 */
module Structures {

  import opened Basics
  import opened Text
  import opened Paths

  /** The contents of the structure directory, by file name. */
  type StructureDir = map<string, string>

  /**
   * The outcome of reading the enabled files in order: the structures read
   * so far and, when a file is absent, its name (reading stops there).
   */
  datatype StructuresLoaded = StructuresLoaded(structures: map<string, string>, missing: Option<string>)

  function LoadStructureFiles(dir: StructureDir, names: seq<string>): StructuresLoaded {
    if names == [] then StructuresLoaded(map[], None)
    else
      var before := LoadStructureFiles(dir, names[..|names| - 1]);
      var name := names[|names| - 1];
      if before.missing.Some? then before
      else if name !in dir then StructuresLoaded(before.structures, Some(name))
      else StructuresLoaded(before.structures[name := dir[name]], None)
  }

  /**
   * Every structure read is keyed by an enabled name and holds that file's
   * text; when no file is absent, every enabled name is a key.
   */
  lemma {:induction false} LoadedStructuresAreTheFiles(dir: StructureDir, names: seq<string>)
    ensures var l := LoadStructureFiles(dir, names);
      && l.structures.Keys <= Elems(names)
      && (forall f :: f in l.structures ==> f in dir && l.structures[f] == dir[f])
      && (l.missing.None? ==> l.structures.Keys == Elems(names))
  {
    if names != [] {
      var n := |names|;
      var front := names[..n - 1];
      LoadedStructuresAreTheFiles(dir, front);
      assert names == front + [names[n - 1]];
      assert Elems(names) == Elems(front) + {names[n - 1]};
    }
  }

  /**
   * After a successful load the count is the number of distinct enabled
   * names: a name given twice is one structure.
   */
  lemma StructureCountAfterLoad(dir: StructureDir, names: seq<string>)
    requires forall i :: 0 <= i < |names| ==> names[i] in dir
    ensures |LoadStructureFiles(dir, names).structures| == |Elems(names)|
  {
    LoadStructureFilesMissing(dir, names);
    LoadedStructuresAreTheFiles(dir, names);
    assert |LoadStructureFiles(dir, names).structures.Keys| == |LoadStructureFiles(dir, names).structures|;
  }

  /**
   * Reading fails exactly when an enabled file is absent; it reports the
   * first absent file and keeps what the files before it gave.
   */
  lemma {:induction false} LoadStructureFilesMissing(dir: StructureDir, names: seq<string>)
    ensures LoadStructureFiles(dir, names).missing.None? <==> forall i :: 0 <= i < |names| ==> names[i] in dir
    ensures LoadStructureFiles(dir, names).missing.Some? ==>
      exists i :: 0 <= i < |names|
        && names[i] == LoadStructureFiles(dir, names).missing.value && names[i] !in dir
        && (forall j :: 0 <= j < i ==> names[j] in dir)
        && LoadStructureFiles(dir, names).structures == LoadStructureFiles(dir, names[..i]).structures
  {
    if names != [] {
      var n := |names|;
      var front := names[..n - 1];
      LoadStructureFilesMissing(dir, front);
      var before := LoadStructureFiles(dir, front);
      if before.missing.Some? {
        var i :| 0 <= i < n - 1 && front[i] == before.missing.value && front[i] !in dir
          && (forall j :: 0 <= j < i ==> front[j] in dir)
          && before.structures == LoadStructureFiles(dir, front[..i]).structures;
        assert front[..i] == names[..i];
        assert LoadStructureFiles(dir, names) == before;
        forall j | 0 <= j < i ensures names[j] in dir {
          assert front[j] == names[j];
        }
        assert names[i] == front[i];
      } else if names[n - 1] !in dir {
        forall j | 0 <= j < n - 1 ensures names[j] in dir {
          assert front[j] == names[j];
        }
        assert names[..n - 1] == front;
        assert LoadStructureFiles(dir, names).structures == LoadStructureFiles(dir, names[..n - 1]).structures;
      } else {
        assert LoadStructureFiles(dir, names).missing.None?;
        forall j | 0 <= j < n ensures names[j] in dir {
          if j < n - 1 {
            assert front[j] == names[j];
          }
        }
      }
    }
  }

  /** Once a file is absent, the files after it change nothing. */
  lemma {:induction false} MissingStructureStops(dir: StructureDir, names: seq<string>, k: nat)
    requires k <= |names| && LoadStructureFiles(dir, names[..k]).missing.Some?
    ensures LoadStructureFiles(dir, names) == LoadStructureFiles(dir, names[..k])
    decreases |names| - k
  {
    if k < |names| {
      var n := |names|;
      assert names[..n - 1][..k] == names[..k];
      MissingStructureStops(dir, names[..n - 1], k);
    } else {
      assert names[..k] == names;
    }
  }

  /**
   * `get_random_structure`: nothing when no structure is loaded, otherwise
   * the chosen file name with its text; the choice is given as `pick`.
   */
  function PickStructure(structures: map<string, string>, pick: string): (r: Option<(string, string)>)
    requires structures == map[] || pick in structures
    ensures r.None? <==> structures == map[]
    ensures r.Some? ==> r.value.0 in structures && r.value.1 == structures[r.value.0]
  {
    if structures == map[] then None else Some((pick, structures[pick]))
  }

  /** Every loaded structure can be the one picked. */
  lemma EveryStructureCanBePicked(structures: map<string, string>, f: string)
    requires f in structures
    ensures exists pick :: pick in structures && PickStructure(structures, pick) == Some((f, structures[f]))
  {
    assert PickStructure(structures, f) == Some((f, structures[f]));
  }

  /**
   * `get_structure_name_without_extension`: the stem of the file name; with
   * no file name (no structure was loaded) the call fails.
   */
  function StructureName(filename: Option<string>): (r: Result<string>)
    ensures r.Err? <==> filename.None?
    ensures r.Ok? ==> r.value + Suffix(filename.value) == Name(filename.value)
  {
    match filename
    case None => Err(NoStructure)
    case Some(f) => Ok(Stem(f))
  }

  const StructureHeading := "## MIMIC THIS DOCUMENT STRUCTURE"
  /** The instruction, written in short pieces: a long string literal slows every proof that sees it. */
  const StructureInstruction :=
    "Use the " + "following " + "example as a " + "close guide for " + "the structure of "
    + "the synthetic " + "document. Mimic " + "this example as " + "far as possible. "
    + "Closely follow " + "how text is " + "organised (e.g. " + "in block text, " + "or in "
    + "subheadings and " + "bullets, how " + "colons are used) " + "and the pattern "
    + "of paragraphs " + "and newlines. If " + "the example " + "structure is too "
    + "short to capture " + "all the content " + "you need to " + "generate, extend "
    + "the structure in " + "exactly the same " + "way to make your " + "synthetic "
    + "document. The " + "style points " + "given above " + "should be " + "applied to this "
    + "example " + "structure, " + "without " + "materially " + "changing it"
  const Fence := "```"

  /** `format_structure_prompt`: heading, instruction, then the text inside a code fence. */
  function FormatStructurePrompt(content: string): string {
    Join([StructureHeading, "", StructureInstruction, "", Fence, content, Fence], "\n")
  }

  /** Everything the section puts before the structure's text. */
  function Preamble(): string {
    StructureHeading + "\n\n" + StructureInstruction + "\n\n" + Fence + "\n"
  }

  /** The text of `s` between a given prefix and a given suffix, when `s` has both. */
  function Between(s: string, prefix: string, suffix: string): (r: Option<string>)
    ensures r.Some? ==> s == prefix + r.value + suffix
  {
    if |s| >= |prefix| + |suffix| && s[..|prefix|] == prefix && s[|s| - |suffix|..] == suffix then
      var r := s[|prefix|..|s| - |suffix|];
      assert s == s[..|prefix|] + r + s[|s| - |suffix|..];
      Some(r)
    else None
  }

  /** Whatever sits between the prefix and the suffix is given back. */
  lemma BetweenOf(prefix: string, r: string, suffix: string)
    ensures Between(prefix + r + suffix, prefix, suffix) == Some(r)
  {
    var s := prefix + r + suffix;
    assert s[..|prefix|] == prefix;
    assert s[|s| - |suffix|..] == suffix;
    assert s[|prefix|..|s| - |suffix|] == r;
  }

  /** The text between the opening fence line and the closing fence, when a prompt has that form. */
  function Unfence(prompt: string): (r: Option<string>)
    ensures r.Some? ==> prompt == Preamble() + r.value + ("\n" + Fence)
  {
    Between(prompt, Preamble(), "\n" + Fence)
  }

  /** The seven lines joined by newlines, for any heading, instruction and text. */
  lemma FencedJoin(h: string, instr: string, fence: string, content: string)
    ensures Join([h, "", instr, "", fence, content, fence], "\n")
      == h + "\n\n" + instr + "\n\n" + fence + "\n" + content + ("\n" + fence)
  {
    JoinCons(content, [fence], "\n");
    JoinCons(fence, [content, fence], "\n");
    assert [fence] + [content, fence] == [fence, content, fence];
    JoinCons("", [fence, content, fence], "\n");
    assert [""] + [fence, content, fence] == ["", fence, content, fence];
    JoinCons(instr, ["", fence, content, fence], "\n");
    assert [instr] + ["", fence, content, fence] == [instr, "", fence, content, fence];
    JoinCons("", [instr, "", fence, content, fence], "\n");
    assert [""] + [instr, "", fence, content, fence] == ["", instr, "", fence, content, fence];
    JoinCons(h, ["", instr, "", fence, content, fence], "\n");
    assert [h] + ["", instr, "", fence, content, fence] == [h, "", instr, "", fence, content, fence];
  }

  /** The structure's text is carried into the section unchanged: unfencing the section gives it back. */
  lemma StructurePromptRoundTrip(content: string)
    ensures FormatStructurePrompt(content) == Preamble() + content + ("\n" + Fence)
    ensures Unfence(FormatStructurePrompt(content)) == Some(content)
  {
    FencedJoin(StructureHeading, StructureInstruction, Fence, content);
    BetweenOf(Preamble(), content, "\n" + Fence);
  }

  class StructureLoader {
    /** `enabled_structures or []`. */
    const enabled: seq<string>
    var structures: map<string, string>

    constructor(enabledStructures: Option<seq<string>>)
      ensures enabled == (if enabledStructures.Some? then enabledStructures.value else [])
      ensures structures == map[]
    {
      enabled := if enabledStructures.Some? then enabledStructures.value else [];
      structures := map[];
    }

    /**
     * `load_structures`: reads the enabled files in order; an absent one
     * raises, leaving the structures read before it.
     */
    method LoadStructures(dir: StructureDir) returns (r: Result<map<string, string>>)
      modifies this
      ensures structures == LoadStructureFiles(dir, enabled).structures
      ensures r == match LoadStructureFiles(dir, enabled).missing
        case Some(f) => Err(FileNotFound(f))
        case None => Ok(structures)
    {
      structures := map[];
      if enabled == [] {
        return Ok(structures);
      }
      var i := 0;
      while i < |enabled|
        invariant 0 <= i <= |enabled|
        invariant LoadStructureFiles(dir, enabled[..i]) == StructuresLoaded(structures, None)
      {
        assert enabled[..i + 1][..i] == enabled[..i];
        var name := enabled[i];
        if name !in dir {
          MissingStructureStops(dir, enabled, i + 1);
          return Err(FileNotFound(name));
        }
        structures := structures[name := dir[name]];
        i := i + 1;
      }
      assert enabled[..i] == enabled;
      r := Ok(structures);
    }

    /** `get_random_structure`. */
    method GetRandomStructure(pick: string) returns (r: Option<(string, string)>)
      requires structures == map[] || pick in structures
      ensures r == PickStructure(structures, pick)
    {
      if structures == map[] {
        return None;
      }
      r := Some((pick, structures[pick]));
    }

    /** `get_structure_count`. */
    function StructureCount(): nat
      reads this
    {
      |structures|
    }
  }
}
