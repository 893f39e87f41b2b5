/**
 * ProfileLoader: reads cancer and molecular profiles from the YAML files of
 * the profile directory and renders one as a prompt section
 * (utils/load_profiles.py).
 *
 * The profile directory is an input: a map from a file name relative to the
 * directory to the parsed file, an ordered list of profile ids with their
 * string fields.
 */
module Profiles {

  import opened Basics
  import opened Text
  import opened Paths

  /** One top-level entry of a profile file: its id and the fields given for it. */
  datatype ProfileEntry = ProfileEntry(id: string, fields: map<string, string>)

  /** The contents of the profile directory, by file name. */
  type ProfileDir = map<string, seq<ProfileEntry>>

  /** The record the loader builds for each profile. */
  datatype Profile = Profile(
    profileId: string,
    cancerType: string,
    sourceFile: string,
    morphology: string,
    descriptiveName: string,
    biomarkerProfile: string)

  /** `profile_data.get(key, default)`. */
  function Get(fields: map<string, string>, key: string, default: string): (r: string)
    ensures key in fields ==> r == fields[key]
    ensures key !in fields ==> r == default
  {
    if key in fields then fields[key] else default
  }

  const UnknownMorphology := "UNKNOWN"

  /**
   * The record for one entry of file `name`: the cancer type is the file's
   * stem, the source file its name, and missing fields take their defaults.
   */
  function ProfileOf(name: string, e: ProfileEntry): Profile {
    Profile(e.id, Stem(name), Name(name),
      Get(e.fields, "morphology", UnknownMorphology),
      Get(e.fields, "descriptive_name", ""),
      Get(e.fields, "biomarker_profile", ""))
  }

  /**
   * The record keeps the entry's id, its source file is the file's name and
   * its cancer type the file's stem (the name less its suffix), and each
   * missing field takes its default.
   */
  lemma ProfileOfFields(name: string, e: ProfileEntry)
    ensures var p := ProfileOf(name, e);
      && p.profileId == e.id
      && p.sourceFile == Name(name) && p.cancerType == Stem(name)
      && p.cancerType + Suffix(name) == p.sourceFile && '/' !in p.sourceFile
      && p.morphology == (if "morphology" in e.fields then e.fields["morphology"] else UnknownMorphology)
      && p.descriptiveName == (if "descriptive_name" in e.fields then e.fields["descriptive_name"] else "")
      && p.biomarkerProfile == (if "biomarker_profile" in e.fields then e.fields["biomarker_profile"] else "")
  {
  }

  /** The profiles of one file, one per entry, in file order. */
  function FileProfiles(name: string, entries: seq<ProfileEntry>): (r: seq<Profile>)
    ensures |r| == |entries| && forall k :: 0 <= k < |entries| ==> r[k] == ProfileOf(name, entries[k])
  {
    seq(|entries|, k requires 0 <= k < |entries| => ProfileOf(name, entries[k]))
  }

  /**
   * The outcome of loading the files in order: the profiles read so far and,
   * when a file is absent, its name (loading stops there).
   */
  datatype Loaded = Loaded(profiles: seq<Profile>, missing: Option<string>)

  function LoadFiles(dir: ProfileDir, names: seq<string>): Loaded {
    if names == [] then Loaded([], None)
    else
      var before := LoadFiles(dir, names[..|names| - 1]);
      var name := names[|names| - 1];
      if before.missing.Some? then before
      else if name !in dir then Loaded(before.profiles, Some(name))
      else Loaded(before.profiles + FileProfiles(name, dir[name]), None)
  }

  /**
   * Loading fails exactly when some file is absent; it reports the first
   * absent file, and keeps the profiles of the files before it.
   */
  lemma {:induction false} LoadFilesMissing(dir: ProfileDir, names: seq<string>)
    ensures LoadFiles(dir, names).missing.None? <==> forall i :: 0 <= i < |names| ==> names[i] in dir
    ensures LoadFiles(dir, names).missing.Some? ==>
      exists i :: 0 <= i < |names|
        && names[i] == LoadFiles(dir, names).missing.value && names[i] !in dir
        && (forall j :: 0 <= j < i ==> names[j] in dir)
        && LoadFiles(dir, names).profiles == LoadFiles(dir, names[..i]).profiles
  {
    if names != [] {
      var n := |names|;
      var front := names[..n - 1];
      LoadFilesMissing(dir, front);
      var before := LoadFiles(dir, front);
      if before.missing.Some? {
        var i :| 0 <= i < n - 1 && front[i] == before.missing.value && front[i] !in dir
          && (forall j :: 0 <= j < i ==> front[j] in dir)
          && before.profiles == LoadFiles(dir, front[..i]).profiles;
        assert front[..i] == names[..i];
        assert LoadFiles(dir, names) == before;
        forall j | 0 <= j < i ensures names[j] in dir {
          assert front[j] == names[j];
        }
        assert names[i] == front[i];
      } else if names[n - 1] !in dir {
        forall j | 0 <= j < n - 1 ensures names[j] in dir {
          assert front[j] == names[j];
        }
        assert names[..n - 1] == front;
        assert LoadFiles(dir, names) == Loaded(before.profiles, Some(names[n - 1]));
      } else {
        assert LoadFiles(dir, names).missing.None?;
        forall j | 0 <= j < n ensures names[j] in dir {
          if j < n - 1 {
            assert front[j] == names[j];
          }
        }
      }
    }
  }

  /** How many entries the named files hold together. */
  function EntryCount(dir: ProfileDir, names: seq<string>): nat
    requires forall i :: 0 <= i < |names| ==> names[i] in dir
  {
    if names == [] then 0 else EntryCount(dir, names[..|names| - 1]) + |dir[names[|names| - 1]]|
  }

  /** When every file is present, one profile is loaded per entry of every file. */
  lemma {:induction false} LoadedCount(dir: ProfileDir, names: seq<string>)
    requires forall i :: 0 <= i < |names| ==> names[i] in dir
    ensures LoadFiles(dir, names).missing.None?
    ensures |LoadFiles(dir, names).profiles| == EntryCount(dir, names)
  {
    if names != [] {
      LoadedCount(dir, names[..|names| - 1]);
    }
  }

  /**
   * Every loaded profile is the record of one entry of one of the named
   * files, and so carries that file's stem as its cancer type.
   */
  lemma {:induction false} ProfileTracesToFile(dir: ProfileDir, names: seq<string>, k: nat)
    requires k < |LoadFiles(dir, names).profiles|
    ensures exists i, j ::
      && 0 <= i < |names| && names[i] in dir && 0 <= j < |dir[names[i]]|
      && LoadFiles(dir, names).profiles[k] == ProfileOf(names[i], dir[names[i]][j])
  {
    var n := |names|;
    var front := names[..n - 1];
    var before := LoadFiles(dir, front);
    if k < |before.profiles| {
      ProfileTracesToFile(dir, front, k);
      var i, j :|
        && 0 <= i < |front| && front[i] in dir && 0 <= j < |dir[front[i]]|
        && before.profiles[k] == ProfileOf(front[i], dir[front[i]][j]);
      assert front[i] == names[i];
      assert LoadFiles(dir, names).profiles[k] == before.profiles[k];
    } else {
      var j := k - |before.profiles|;
      assert LoadFiles(dir, names).profiles[k] == ProfileOf(names[n - 1], dir[names[n - 1]][j]);
    }
  }

  /** The names `glob("*.yml")` finds in the profile directory itself. */
  function YmlNames(dir: ProfileDir): (r: set<string>)
    ensures forall n :: n in r <==> n in dir && '/' !in n && EndsWith(n, ".yml")
  {
    set n | n in dir.Keys && '/' !in n && EndsWith(n, ".yml")
  }

  /** `random.choice(profiles)` with the chosen position given as `pick`. */
  function RandomProfile(profiles: seq<Profile>, pick: nat): (r: Result<Profile>)
    requires profiles == [] || pick < |profiles|
    ensures r.Err? <==> profiles == []
    ensures r.Err? ==> r.error == NoProfilesLoaded
    ensures r.Ok? ==> r.value in profiles
  {
    if profiles == [] then Err(NoProfilesLoaded) else Ok(profiles[pick])
  }

  /** Every loaded profile can be the one `random.choice` returns. */
  lemma EveryProfileCanBeDrawn(profiles: seq<Profile>, p: Profile)
    requires p in profiles
    ensures exists pick: nat :: pick < |profiles| && RandomProfile(profiles, pick) == Ok(p)
  {
    var k :| 0 <= k < |profiles| && profiles[k] == p;
    assert RandomProfile(profiles, k) == Ok(p);
  }

  /**
   * `get_sequential_profiles`: the profiles in load order, or the error an
   * empty catalog raises once iteration starts.
   */
  function SequentialProfiles(profiles: seq<Profile>): (r: Result<seq<Profile>>)
    ensures r.Err? <==> profiles == []
    ensures r.Err? ==> r.error == NoProfilesLoaded
    ensures r.Ok? ==> r.value == profiles
  {
    if profiles == [] then Err(NoProfilesLoaded) else Ok(profiles)
  }

  // The labels are spelled in short pieces: the verifier reads a short
  // literal character by character, which lets it see that none holds a line break.
  const ProfileHeading := "## USE THIS" + " PRIMARY " + "CANCER " + "PROFILE"
  const DiagnosisLabel := "**Primary " + "Diagnosis " + "that " + "should " + "appear " + "verbatim " + "in " + "document:** "
  const BiomarkerLabel := "**Biomarker" + " Profile -" + " Note that" + " these are" + " the ONLY "
    + "molecular " + "biomarker " + "results th" + "at should " + "be given f" + "or this pa" + "tient:** "

  lemma HeadingIsOneLine() ensures '\n' !in ProfileHeading { }
  lemma DiagnosisLabelIsOneLine() ensures '\n' !in DiagnosisLabel { }
  lemma BiomarkerLabelIsOneLine() ensures '\n' !in BiomarkerLabel {
    var front := "**Biomarker" + " Profile -" + " Note that" + " these are" + " the ONLY ";
    var back := "molecular " + "biomarker " + "results th" + "at should " + "be given f" + "or this pa" + "tient:** ";
    assert '\n' !in front;
    assert '\n' !in back;
    assert BiomarkerLabel == front + back;
  }

  /** The lines of the profile section, before they are joined. */
  function ProfileLines(p: Profile): seq<string> {
    [ProfileHeading, "", DiagnosisLabel + p.descriptiveName, "", BiomarkerLabel + p.biomarkerProfile, ""]
  }

  /**
   * `format_profile_prompt`: the heading, the diagnosis and the biomarker
   * line, separated by blank lines and ending in a newline.
   */
  function FormatProfilePrompt(p: Profile): string {
    Join(ProfileLines(p), "\n")
  }

  /**
   * The section starts with its heading, carries the diagnosis and the
   * biomarker profile verbatim right after their labels, and ends with a
   * newline.
   */
  lemma ProfilePromptShape(p: Profile)
    ensures FormatProfilePrompt(p)
      == ProfileHeading + "\n\n" + (DiagnosisLabel + p.descriptiveName) + "\n\n"
         + (BiomarkerLabel + p.biomarkerProfile) + "\n"
  {
    SixLinesJoin(ProfileHeading, DiagnosisLabel + p.descriptiveName, BiomarkerLabel + p.biomarkerProfile);
  }

  /** Three lines, each followed by a blank line, joined by newlines. */
  lemma SixLinesJoin(h: string, d: string, b: string)
    ensures Join([h, "", d, "", b, ""], "\n") == h + "\n\n" + d + "\n\n" + b + "\n"
  {
    JoinCons(b, [""], "\n");
    JoinCons("", [b, ""], "\n");
    assert [""] + [b, ""] == ["", b, ""];
    JoinCons(d, ["", b, ""], "\n");
    assert [d] + ["", b, ""] == [d, "", b, ""];
    JoinCons("", [d, "", b, ""], "\n");
    assert [""] + [d, "", b, ""] == ["", d, "", b, ""];
    JoinCons(h, ["", d, "", b, ""], "\n");
    assert [h] + ["", d, "", b, ""] == [h, "", d, "", b, ""];
  }

  /**
   * When the diagnosis and the biomarker profile hold no newline, splitting
   * the section into lines gives back the diagnosis and biomarker lines
   * verbatim.
   */
  lemma ProfilePromptLines(p: Profile)
    requires '\n' !in p.descriptiveName && '\n' !in p.biomarkerProfile
    ensures Split(FormatProfilePrompt(p), '\n') == ProfileLines(p)
  {
    var lines := ProfileLines(p);
    HeadingIsOneLine();
    DiagnosisLabelIsOneLine();
    BiomarkerLabelIsOneLine();
    forall k | 0 <= k < |lines| ensures '\n' !in lines[k] { }
    SplitJoin(lines, '\n');
  }

  class ProfileLoader {
    var allProfiles: seq<Profile>
    /** The file names the last `load_all_profiles` found, in sorted order. */
    var profileFiles: seq<string>

    constructor()
      ensures allProfiles == [] && profileFiles == []
    {
      allProfiles := [];
      profileFiles := [];
    }

    /** `_load_profiles_from_file`: one record per entry of the parsed file. */
    method LoadProfilesFromFile(name: string, entries: seq<ProfileEntry>) returns (profiles: seq<Profile>)
      ensures profiles == FileProfiles(name, entries)
    {
      profiles := [];
      var k := 0;
      while k < |entries|
        invariant 0 <= k <= |entries|
        invariant |profiles| == k && forall j :: 0 <= j < k ==> profiles[j] == ProfileOf(name, entries[j])
      {
        profiles := profiles + [ProfileOf(name, entries[k])];
        k := k + 1;
      }
      assert profiles == FileProfiles(name, entries);
    }

    /** The loop of `load_all_profiles`: the profiles of each file, appended in order. */
    method ReadAll(dir: ProfileDir, files: seq<string>) returns (loaded: seq<Profile>)
      requires forall k :: 0 <= k < |files| ==> files[k] in dir
      ensures LoadFiles(dir, files) == Loaded(loaded, None)
    {
      loaded := [];
      var i := 0;
      while i < |files|
        invariant 0 <= i <= |files|
        invariant LoadFiles(dir, files[..i]) == Loaded(loaded, None)
      {
        assert files[..i + 1][..i] == files[..i];
        var profiles := LoadProfilesFromFile(files[i], dir[files[i]]);
        loaded := loaded + profiles;
        i := i + 1;
      }
      assert files[..i] == files;
    }

    /**
     * `load_all_profiles`: every `.yml` file of the directory, in sorted
     * order, is read and its profiles appended.
     */
    method LoadAllProfiles(dir: ProfileDir) returns (r: seq<Profile>)
      modifies this
      ensures profileFiles == SortedOf(YmlNames(dir))
      ensures LoadFiles(dir, profileFiles) == Loaded(allProfiles, None)
      ensures r == allProfiles
    {
      var files := SortNames(YmlNames(dir));
      profileFiles := files;
      forall k | 0 <= k < |files| ensures files[k] in dir {
        assert files[k] in Elems(files);
      }
      allProfiles := ReadAll(dir, files);
      r := allProfiles;
    }

    /**
     * `load_profiles_from_files`: the named files in the given order; an
     * absent file raises, leaving the profiles of the files before it.
     */
    method LoadProfilesFromFiles(dir: ProfileDir, filenames: seq<string>) returns (r: Result<seq<Profile>>)
      modifies this
      ensures profileFiles == old(profileFiles)
      ensures allProfiles == LoadFiles(dir, filenames).profiles
      ensures r == match LoadFiles(dir, filenames).missing
        case Some(f) => Err(FileNotFound(f))
        case None => Ok(allProfiles)
    {
      allProfiles := [];
      var i := 0;
      while i < |filenames|
        invariant 0 <= i <= |filenames|
        invariant profileFiles == old(profileFiles)
        invariant LoadFiles(dir, filenames[..i]) == Loaded(allProfiles, None)
      {
        assert filenames[..i + 1][..i] == filenames[..i];
        var name := filenames[i];
        if name !in dir {
          MissingStops(dir, filenames, i + 1);
          return Err(FileNotFound(name));
        }
        var profiles := LoadProfilesFromFile(name, dir[name]);
        allProfiles := allProfiles + profiles;
        i := i + 1;
      }
      assert filenames[..i] == filenames;
      r := Ok(allProfiles);
    }

    /** `get_random_profile`. */
    method GetRandomProfile(pick: nat) returns (r: Result<Profile>)
      requires allProfiles == [] || pick < |allProfiles|
      ensures r == RandomProfile(allProfiles, pick)
    {
      if allProfiles == [] {
        return Err(NoProfilesLoaded);
      }
      r := Ok(allProfiles[pick]);
    }

    /** `get_profile_count`. */
    function ProfileCount(): nat
      reads this
    {
      |allProfiles|
    }
  }

  /** Once a file is absent, the files after it change nothing. */
  lemma {:induction false} MissingStops(dir: ProfileDir, names: seq<string>, k: nat)
    requires k <= |names| && LoadFiles(dir, names[..k]).missing.Some?
    ensures LoadFiles(dir, names) == LoadFiles(dir, names[..k])
    decreases |names| - k
  {
    if k < |names| {
      var n := |names|;
      assert names[..n - 1][..k] == names[..k];
      MissingStops(dir, names[..n - 1], k);
    } else {
      assert names[..k] == names;
    }
  }

  /** After loading every file of the directory, the count is the number of entries they hold. */
  lemma LoadAllCount(dir: ProfileDir)
    ensures forall i :: 0 <= i < |SortedOf(YmlNames(dir))| ==> SortedOf(YmlNames(dir))[i] in dir
    ensures |LoadFiles(dir, SortedOf(YmlNames(dir))).profiles| == EntryCount(dir, SortedOf(YmlNames(dir)))
  {
    var files := SortedOf(YmlNames(dir));
    forall i | 0 <= i < |files| ensures files[i] in dir {
      assert files[i] in Elems(files);
    }
    LoadedCount(dir, files);
  }
}
