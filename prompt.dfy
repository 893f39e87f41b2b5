/**
 * PromptBuilder: assembles one complete prompt from a style block, a content
 * block, a profile section and a structure section, and places it in the
 * prompt template (utils/build_prompt.py).
 */
module Prompt {

  import opened Basics
  import opened Text
  import opened Paths
  import opened Sampling
  import opened Profiles
  import opened Structures

  /**
   * A prompt template as `str.format` sees it: literal text and the
   * `{specific_instructions}` field, in order.
   */
  datatype Piece = Literal(text: string) | Slot
  type Template = seq<Piece>

  /** `template.format(specific_instructions=x)`. */
  function Render(t: Template, x: string): string {
    if t == [] then ""
    else Render(t[..|t| - 1], x) + (match t[|t| - 1] case Literal(s) => s case Slot => x)
  }

  function SlotCount(t: Template): nat {
    if t == [] then 0 else SlotCount(t[..|t| - 1]) + (if t[|t| - 1].Slot? then 1 else 0)
  }

  function LiteralLength(t: Template): nat {
    if t == [] then 0 else LiteralLength(t[..|t| - 1]) + (match t[|t| - 1] case Literal(s) => |s| case Slot => 0)
  }

  /** The rendered prompt is the template's text with one copy of the instructions per field. */
  lemma {:induction false} RenderLength(t: Template, x: string)
    ensures |Render(t, x)| == LiteralLength(t) + SlotCount(t) * |x|
  {
    if t != [] {
      var front := t[..|t| - 1];
      RenderLength(front, x);
      var n := SlotCount(front);
      if t[|t| - 1].Slot? {
        assert SlotCount(t) == n + 1 && LiteralLength(t) == LiteralLength(front);
        assert Render(t, x) == Render(front, x) + x;
        assert (n + 1) * |x| == n * |x| + |x|;
      } else {
        assert SlotCount(t) == n && LiteralLength(t) == LiteralLength(front) + |t[|t| - 1].text|;
        assert Render(t, x) == Render(front, x) + t[|t| - 1].text;
      }
    }
  }

  /** A template with one field between two pieces of text puts the instructions between them. */
  lemma RenderOneSlot(before: string, after: string, x: string)
    ensures Render([Literal(before), Slot, Literal(after)], x) == before + x + after
  {
    var t := [Literal(before), Slot, Literal(after)];
    var one := [Literal(before)];
    assert one[..0] == [];
    assert Render(one, x) == before;
    assert t[..2] == [Literal(before), Slot] && t[..2][..1] == one;
    assert Render(t[..2], x) == before + x;
  }

  /** The random inputs one prompt consumes: the catalog draws and the structure chosen. */
  datatype Draws = Draws(style: seq<seq<real>>, content: seq<seq<real>>, structure: string)

  predicate DrawsFit(sampler: ConfigSampler, structures: map<string, string>, d: Draws) {
    && CatalogDrawsFit(sampler.styleData, d.style)
    && CatalogDrawsFit(sampler.contentData, d.content)
    && (structures == map[] || d.structure in structures)
  }

  /** What `build_prompt` returns: the prompt, the structure's stem and the profile's id. */
  datatype Built = Built(prompt: string, structureName: string, profileId: string)

  /** The sections of the instructions, in order, the optional ones only when asked for. */
  function Components(style: string, content: string, profilePrompt: string, structurePrompt: string,
                      includeStyle: bool, includeContent: bool): seq<string>
  {
    (if includeStyle then [style] else []) + (if includeContent then [content] else []) + [profilePrompt, structurePrompt]
  }

  /** `"\n\n".join(components)`. */
  function Instructions(style: string, content: string, profilePrompt: string, structurePrompt: string,
                        includeStyle: bool, includeContent: bool): string
  {
    Join(Components(style, content, profilePrompt, structurePrompt, includeStyle, includeContent), "\n\n")
  }

  /** The requested blocks, each followed by a blank line. */
  function Head(style: string, content: string, includeStyle: bool, includeContent: bool): string {
    (if includeStyle then style + "\n\n" else "") + (if includeContent then content + "\n\n" else "")
  }

  /**
   * The instructions are the requested blocks, each followed by a blank
   * line, then the profile section, a blank line and the structure section.
   */
  lemma InstructionsShape(style: string, content: string, profilePrompt: string, structurePrompt: string,
                          includeStyle: bool, includeContent: bool)
    ensures Instructions(style, content, profilePrompt, structurePrompt, includeStyle, includeContent)
      == Head(style, content, includeStyle, includeContent) + (profilePrompt + "\n\n" + structurePrompt)
  {
    var sep := "\n\n";
    var tail := [profilePrompt, structurePrompt];
    JoinCons(profilePrompt, [structurePrompt], sep);
    assert [profilePrompt] + [structurePrompt] == tail;
    var withContent := (if includeContent then [content] else []) + tail;
    if includeContent {
      JoinCons(content, tail, sep);
      assert Join(withContent, sep) == content + sep + Join(tail, sep);
    } else {
      assert withContent == tail;
    }
    var all := (if includeStyle then [style] else []) + withContent;
    assert Components(style, content, profilePrompt, structurePrompt, includeStyle, includeContent) == all;
    if includeStyle {
      JoinCons(style, withContent, sep);
    } else {
      assert all == withContent;
    }
  }

  /**
   * `build_prompt`: sample both catalogs, render the profile, pick a
   * structure, and fill the template. Fails when sampling fails or when no
   * structure is loaded (the stem of a missing file name is asked for).
   */
  function BuildPrompt(sampler: ConfigSampler, template: Template, structures: map<string, string>,
                       profile: Profile, includeStyle: bool, includeContent: bool, d: Draws): (r: Result<Built>)
    requires DrawsFit(sampler, structures, d)
    ensures r.Err? <==> GeneratePrompts(sampler, d.style, d.content).Err? || structures == map[]
    ensures GeneratePrompts(sampler, d.style, d.content).Err? ==> r == Err(GeneratePrompts(sampler, d.style, d.content).error)
    ensures GeneratePrompts(sampler, d.style, d.content).Ok? && structures == map[] ==> r == Err(NoStructure)
  {
    match GeneratePrompts(sampler, d.style, d.content)
    case Err(e) => Err(e)
    case Ok(blocks) =>
      var profilePrompt := FormatProfilePrompt(profile);
      var picked := PickStructure(structures, d.structure);
      match StructureName(if picked.Some? then Some(picked.value.0) else None)
      case Err(e) => Err(e)
      case Ok(name) =>
        var structurePrompt := FormatStructurePrompt(picked.value.1);
        var instructions := Instructions(blocks.0, blocks.1, profilePrompt, structurePrompt, includeStyle, includeContent);
        Ok(Built(Render(template, instructions), name, profile.profileId))
  }

  /**
   * A built prompt reports the profile's id and the stem of the chosen
   * structure; its instructions are the sampled style and content blocks
   * that were asked for, each followed by a blank line, then the profile
   * section, a blank line and the chosen structure's section.
   */
  lemma BuildPromptResult(sampler: ConfigSampler, template: Template, structures: map<string, string>,
                          profile: Profile, includeStyle: bool, includeContent: bool, d: Draws)
    requires DrawsFit(sampler, structures, d)
    requires BuildPrompt(sampler, template, structures, profile, includeStyle, includeContent, d).Ok?
    ensures var b := BuildPrompt(sampler, template, structures, profile, includeStyle, includeContent, d).value;
      && d.structure in structures
      && b.profileId == profile.profileId
      && b.structureName == Stem(d.structure)
      && GeneratePrompts(sampler, d.style, d.content).Ok?
      && var blocks := GeneratePrompts(sampler, d.style, d.content).value;
         b.prompt == Render(template, Head(blocks.0, blocks.1, includeStyle, includeContent)
           + (FormatProfilePrompt(profile) + "\n\n" + FormatStructurePrompt(structures[d.structure])))
  {
    var blocks := GeneratePrompts(sampler, d.style, d.content).value;
    var profilePrompt := FormatProfilePrompt(profile);
    var structurePrompt := FormatStructurePrompt(structures[d.structure]);
    InstructionsShape(blocks.0, blocks.1, profilePrompt, structurePrompt, includeStyle, includeContent);
    var head := Head(blocks.0, blocks.1, includeStyle, includeContent);
    assert BuildPrompt(sampler, template, structures, profile, includeStyle, includeContent, d).value.prompt
      == Render(template, head + (profilePrompt + "\n\n" + structurePrompt));
  }

  /** The optional blocks appear in the instructions exactly when they are asked for. */
  lemma OptionalBlocks(style: string, content: string, profilePrompt: string, structurePrompt: string)
    ensures Instructions(style, content, profilePrompt, structurePrompt, false, false)
      == profilePrompt + "\n\n" + structurePrompt
    ensures Instructions(style, content, profilePrompt, structurePrompt, true, true)
      == (style + "\n\n" + content + "\n\n") + Instructions(style, content, profilePrompt, structurePrompt, false, false)
  {
    InstructionsShape(style, content, profilePrompt, structurePrompt, false, false);
    InstructionsShape(style, content, profilePrompt, structurePrompt, true, true);
  }

  class PromptBuilder {
    const sampler: ConfigSampler
    const profileLoader: ProfileLoader
    const structureLoader: StructureLoader
    /** The text of the template file, read when the builder is made. */
    const template: Template

    constructor(sampler: ConfigSampler, profileLoader: ProfileLoader, structureLoader: StructureLoader, template: Template)
      ensures this.sampler == sampler && this.profileLoader == profileLoader
      ensures this.structureLoader == structureLoader && this.template == template
    {
      this.sampler := sampler;
      this.profileLoader := profileLoader;
      this.structureLoader := structureLoader;
      this.template := template;
    }

    /**
     * `load_profiles`: the named files when a non-empty list is given,
     * otherwise every profile file of the directory.
     */
    method LoadProfiles(dir: ProfileDir, profileFiles: Option<seq<string>>) returns (r: Result<seq<Profile>>)
      modifies profileLoader
      ensures profileFiles.Some? && profileFiles.value != [] ==>
        && profileLoader.profileFiles == old(profileLoader.profileFiles)
        && profileLoader.allProfiles == LoadFiles(dir, profileFiles.value).profiles
        && r == match LoadFiles(dir, profileFiles.value).missing
             case Some(f) => Err(FileNotFound(f))
             case None => Ok(profileLoader.allProfiles)
      ensures !(profileFiles.Some? && profileFiles.value != []) ==>
        && profileLoader.profileFiles == SortedOf(YmlNames(dir))
        && LoadFiles(dir, SortedOf(YmlNames(dir))) == Loaded(profileLoader.allProfiles, None)
        && r == Ok(profileLoader.allProfiles)
    {
      if profileFiles.Some? && profileFiles.value != [] {
        r := profileLoader.LoadProfilesFromFiles(dir, profileFiles.value);
      } else {
        var all := profileLoader.LoadAllProfiles(dir);
        r := Ok(all);
      }
    }

    /** `get_profile_count`. */
    function ProfileCount(): nat
      reads profileLoader
    {
      profileLoader.ProfileCount()
    }

    /** `get_random_profile`. */
    method GetRandomProfile(pick: nat) returns (r: Result<Profile>)
      requires profileLoader.allProfiles == [] || pick < |profileLoader.allProfiles|
      ensures r == RandomProfile(profileLoader.allProfiles, pick)
    {
      r := profileLoader.GetRandomProfile(pick);
    }

    /** `get_sequential_profiles`. */
    function SequentialProfiles(): Result<seq<Profile>>
      reads profileLoader
    {
      Profiles.SequentialProfiles(profileLoader.allProfiles)
    }

    /** `build_prompt`, over the structures the builder loaded. */
    method Build(profile: Profile, includeStyle: bool, includeContent: bool, d: Draws) returns (r: Result<Built>)
      requires DrawsFit(sampler, structureLoader.structures, d)
      ensures r == BuildPrompt(sampler, template, structureLoader.structures, profile, includeStyle, includeContent, d)
    {
      var blocks := GeneratePrompts(sampler, d.style, d.content);
      if blocks.Err? {
        return Err(blocks.error);
      }
      var profilePrompt := FormatProfilePrompt(profile);
      var picked := structureLoader.GetRandomStructure(d.structure);
      var name := StructureName(if picked.Some? then Some(picked.value.0) else None);
      if name.Err? {
        return Err(name.error);
      }
      var structurePrompt := FormatStructurePrompt(picked.value.1);
      var instructions := Instructions(blocks.value.0, blocks.value.1, profilePrompt, structurePrompt, includeStyle, includeContent);
      r := Ok(Built(Render(template, instructions), name.value, profile.profileId));
    }
  }

  /**
   * `PromptBuilder.__init__`: makes the sampler, the profile loader and the
   * structure loader, and reads the enabled structures; an absent structure
   * file raises. The template file's text is given.
   */
  method NewPromptBuilder(sampler: ConfigSampler, template: Template, enabled: Option<seq<string>>, structureDir: StructureDir)
    returns (r: Result<PromptBuilder>)
    ensures var names := if enabled.Some? then enabled.value else [];
      && (r.Err? <==> LoadStructureFiles(structureDir, names).missing.Some?)
      && (r.Err? ==> r.error == FileNotFound(LoadStructureFiles(structureDir, names).missing.value))
      && (r.Ok? ==>
            && fresh(r.value) && fresh(r.value.profileLoader) && fresh(r.value.structureLoader)
            && r.value.sampler == sampler && r.value.template == template
            && r.value.profileLoader.allProfiles == [] && r.value.profileLoader.profileFiles == []
            && r.value.structureLoader.enabled == names
            && r.value.structureLoader.structures == LoadStructureFiles(structureDir, names).structures)
  {
    var profileLoader := new ProfileLoader();
    var structureLoader := new StructureLoader(enabled);
    var loaded := structureLoader.LoadStructures(structureDir);
    if loaded.Err? {
      return Err(loaded.error);
    }
    var builder := new PromptBuilder(sampler, profileLoader, structureLoader, template);
    r := Ok(builder);
  }
}
