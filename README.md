# Prompt synthesis engine, modelled in Dafny

This project models the prompt-synthesis engine of a synthetic clinical
document generator. The engine has five parts:

- **ConfigSampler** (`sampling.dfy`, module `Sampling`) reads the style
  catalog and the content catalog. A section flagged `_mutually_exclusive`
  gets one weighted draw (`random.choices`). Every other section gets one
  `random() < probability` trial per feature. The sampled directives are
  rendered as a Markdown block: a heading, a bold title-cased line per section
  that selected something, and one `- description` bullet per selected feature.
- **ProfileLoader** (`profiles.dfy`, module `Profiles`) loads cancer profiles
  from YAML files. It either takes every `*.yml` file in sorted order, or takes
  an explicit list of files and fails on a missing one. It also offers a random
  pick, a sequential pass, a count and the profile prompt section.
- **StructureLoader** (`structures.dfy`, module `Structures`) holds the enabled
  example documents by file name. It offers a random pick, the fenced
  "mimic this structure" section and the file-name stem.
- **PromptBuilder** (`prompt.dfy`, module `Prompt`) joins the optional style
  and content blocks, the profile section and the structure section with blank
  lines, and puts the result into the template's `{specific_instructions}` field.
- **The generation pipeline** (`generate.dfy`, module `Generate`) covers
  `<OUTPUT>` extraction, document ids, the saved JSON record, and the
  sequential and random loops of `main`. A model failure skips one document;
  a prompt failure ends the run.

Shared helpers live in `basics.dfy`: `Option`, `Result`, and the exceptions as
one `Error` datatype. Python's `str` behaviour used by the engine is in
`text.dfy`: `strip`, `join`, `find`, `split`, ASCII `title`, zero-padded
fields, and the string order `sorted` uses. The `pathlib` `name`, `suffix` and
`stem` rules are in `paths.dfy`.

Every source of randomness is an input:

- each independent trial is a `real` draw in [0, 1);
- a weighted choice is one such draw, fed through an exact model of CPython's
  `random.choices`: running totals, then `bisect_right` at `random() * total`;
- `random.choice` over profiles is a position;
- `random.choice` over structures is the chosen key.

The clock and the model's replies are inputs as well. The file system is a set
of maps: profile files to entry lists, structure files to their text, and the
output directory to JSON objects. The language-model client is an outcome per
document: a response, or an exception.

Behaviour of the code worth noting:

- no `profile_name` is derived from the profile id;
- the profile section renders only `descriptive_name` and `biomarker_profile`;
- there is no skip-existing filter and no parsing of earlier output names;
- an empty structure catalog makes `build_prompt` fail rather than leave out
  the block (`Path(None)` raises);
- `count: -1` means "all profiles" in random mode too;
- an unknown mode runs no loop and raises no error;
- in sequential mode an empty catalog raises even when no document is asked for;
- a failed load keeps the profiles, or the structures, of the files read
  before the missing one.

## Model

| member | source | states |
|---|---|---|
| `Sampling.MutuallyExclusive` | utils/load_sampling.py:23 | a section without a `_mutually_exclusive` entry is not exclusive |
| `Sampling.Items` | utils/load_sampling.py:24 | the candidates are exactly the section's entries whose key does not start with `_`, in order |
| `Sampling.WeightedChoice` | utils/load_sampling.py:31 | `random.choices` fails exactly on an empty population or a non-positive total weight, and otherwise returns a valid position |
| `Sampling.ChoiceHasPositiveWeight` | utils/load_sampling.py:29-31 | with non-negative weights and a draw in [0,1), the chosen feature has positive weight, so a zero-weight feature is never chosen |
| `Sampling.SectionSampleFails` | utils/load_sampling.py:22-43 | sampling a section fails exactly when an item is not a feature mapping, or the section is exclusive and its weights are rejected |
| `Sampling.ExclusiveSelectsAtMostOne` | utils/load_sampling.py:28-34 | an exclusive section yields at most one item, which is a candidate feature with a non-empty description and positive weight |
| `Sampling.IndependentPickIsSubsequence` | utils/load_sampling.py:35-41 | an independent section yields a subsequence of its features in declaration order, and feature j is in it iff its draw is below its probability and its description is non-empty |
| `Sampling.IndependentCertainties` | utils/load_sampling.py:38 | with draws in [0,1), a feature of probability 1.0 with a description is always selected, and one of probability 0.0 never is |
| `Sampling.SampleIndependent` | utils/load_sampling.py:35-41 | the trial loop returns the independent selection, or the error for a malformed feature |
| `Sampling.SampleSection` | utils/load_sampling.py:22-43 | `_sample_section` returns the section's selection for the given draws |
| `Sampling.CatalogSampleFails` | utils/load_sampling.py:45-55 | sampling a catalog fails exactly when sampling one of its sections fails |
| `Sampling.CatalogSampleShape` | utils/load_sampling.py:45-55 | a successful sample has exactly one entry per catalog section, in catalog order and under its name, empty selections included |
| `Sampling.SampleCatalog` | utils/load_sampling.py:45-49 | the section loop returns the catalog sample and stops at the first failing section |
| `Sampling.SectionTitle` | utils/load_sampling.py:63 | each underscore becomes a space, then every character is upper-cased when it does not follow a cased character and lower-cased when it does; the length is kept and no underscore is left |
| `Text.TitleAt` | utils/load_sampling.py:63 | `title()` upper-cases each character that does not follow a cased one and lower-cases the rest |
| `Sampling.BuildLines` | utils/load_sampling.py:58-67 | the line loop gives the heading, a blank line, then each section's title, bullets and blank line, and nothing for a section that selected nothing |
| `Sampling.FormatSampled` | utils/load_sampling.py:57-69 | the formatter returns the stripped newline-join of those lines |
| `Sampling.FormatBlockStartsWithHeading` | utils/load_sampling.py:57-69 | the block is its heading followed by the section lines, with only trailing whitespace removed |
| `Sampling.EmptySelectionIsHeading` | utils/load_sampling.py:58-69 | when no section selected anything, the block is exactly the heading line |
| `Sampling.BlockLinesReadBack` | utils/load_sampling.py:61-67 | the bullet lines are exactly one `- description` per selected item in selection order, and the title lines are exactly one per non-empty section |
| `Sampling.StyleAndContentShareTheirBody` | utils/load_sampling.py:57-83 | the style and content blocks have the same body after their different headings |
| `Sampling.EveryPositiveWeightReachable` | utils/load_sampling.py:31 | every position of positive weight is returned by `random.choices` for some draw in [0,1) |
| `Sampling.ExclusiveEveryFeatureReachable` | utils/load_sampling.py:28-34 | in an exclusive section with non-negative weights, every candidate of positive weight with a description is the sole selection for some draw |
| `Sampling.GeneratePrompts` | utils/load_sampling.py:85-90 | both catalogs are sampled on every call; the call fails iff either sample fails, and otherwise yields one block under each heading |
| `Profiles.ProfileOfFields` | utils/load_profiles.py:45-55 | each record keeps the entry's key as `profile_id`, has the file's final path component as `source_file` and that name's stem as `cancer_type`, and defaults morphology to "UNKNOWN" and the other two fields to "" |
| `Profiles.FileProfiles` | utils/load_profiles.py:38-57 | a file with n entries yields exactly n records, in entry order |
| `Profiles.ProfileLoader.LoadProfilesFromFile` | utils/load_profiles.py:38-57 | the append loop yields the file's records |
| `Profiles.LoadFilesMissing` | utils/load_profiles.py:28-36 | loading named files fails iff one is absent; it reports the first absent file and keeps the profiles of the files before it |
| `Profiles.MissingStops` | utils/load_profiles.py:30-33 | once a file is absent, later files change nothing |
| `Profiles.LoadedCount` | utils/load_profiles.py:18-36 | when every file is present, one profile is loaded per entry of every file |
| `Profiles.ProfileTracesToFile` | utils/load_profiles.py:18-36 | every loaded profile is the record of one entry of one of the named files |
| `Profiles.YmlNames` | utils/load_profiles.py:19 | the glob finds exactly the directory's own names ending in `.yml` |
| `Text.SortNames` | utils/load_profiles.py:19 | `sorted` returns the names strictly increasing, each exactly once |
| `Text.SortedUnique` | utils/load_profiles.py:19 | a set of names has only one strictly sorted arrangement |
| `Profiles.ProfileLoader.constructor` | utils/load_profiles.py:12-16 | a new loader holds no profiles and no files |
| `Profiles.ProfileLoader.ReadAll` | utils/load_profiles.py:22-24 | the extend loop gives the concatenation of each file's profiles in the given order |
| `Profiles.ProfileLoader.LoadAllProfiles` | utils/load_profiles.py:18-26 | earlier contents are discarded; the files are the sorted `.yml` names, and the profiles are the concatenation of their records in that order |
| `Profiles.ProfileLoader.LoadProfilesFromFiles` | utils/load_profiles.py:28-36 | the profiles are the concatenation in name order; a missing file raises not-found and leaves the profiles of the files before it |
| `Profiles.LoadAllCount` | utils/load_profiles.py:83-84 | after loading everything, the count is the number of entries in the `.yml` files |
| `Profiles.RandomProfile` | utils/load_profiles.py:59-62 | a random pick fails iff the catalog is empty, and otherwise returns a loaded profile |
| `Profiles.EveryProfileCanBeDrawn` | utils/load_profiles.py:59-62 | every loaded profile can be drawn |
| `Profiles.ProfileLoader.GetRandomProfile` | utils/load_profiles.py:59-62 | the method returns the random pick for the given position |
| `Profiles.SequentialProfiles` | utils/load_profiles.py:64-68 | the sequential pass fails iff the catalog is empty, and otherwise yields every profile once, in list order |
| `Profiles.ProfilePromptShape` | utils/load_profiles.py:70-81 | the section starts with its heading, carries `descriptive_name` and `biomarker_profile` verbatim after their labels, and ends with a newline |
| `Profiles.ProfilePromptLines` | utils/load_profiles.py:70-81 | for values without a newline, splitting the section into lines gives back the six lines |
| `Structures.StructureLoader.constructor` | utils/load_structure.py:10-14 | an absent enabled list is taken as empty, and the map starts empty |
| `Structures.StructureLoader.LoadStructures` | utils/load_structure.py:16-32 | the map is rebuilt from the enabled files in order; a missing file raises not-found and keeps the earlier keys |
| `Structures.LoadedStructuresAreTheFiles` | utils/load_structure.py:22-32 | every key is an enabled name mapped to its file's text, and on success the keys are exactly the enabled names |
| `Structures.LoadStructureFilesMissing` | utils/load_structure.py:24-25 | loading fails iff an enabled file is absent, and reports the first one |
| `Structures.MissingStructureStops` | utils/load_structure.py:24-25 | once a file is absent, later files change nothing |
| `Structures.StructureCountAfterLoad` | utils/load_structure.py:54-55 | after a successful load the count is the number of distinct enabled names |
| `Structures.PickStructure` | utils/load_structure.py:34-40 | the pick is `(None, None)` iff the map is empty, and otherwise a key with that key's own text |
| `Structures.EveryStructureCanBePicked` | utils/load_structure.py:34-40 | every loaded structure can be picked |
| `Structures.StructureLoader.GetRandomStructure` | utils/load_structure.py:34-40 | the method returns the pick for the given key |
| `Structures.StructurePromptRoundTrip` | utils/load_structure.py:42-52 | the section is the heading, the instruction and the opening fence line, then the text verbatim, then a final fence line; unfencing gives the text back |
| `Structures.StructureName` | utils/load_structure.py:57-58 | the name plus its last extension is the final path component; with no file name the call fails |
| `Paths.Stem` | utils/load_structure.py:57-58 | the stem plus the suffix is the final path component, and the stem equals it iff there is no extension |
| `Paths.ExtensionDot` | utils/load_structure.py:57-58 | a name has an extension iff its last dot is neither its first nor its last character, and the extension starts at that dot |
| `Paths.StemDropsLastExtension` | utils/load_structure.py:57-58 | for every path, the stem is the name up to its last dot and the suffix the rest, holding no other dot, when that dot is inside the name; otherwise the stem is the whole name and the suffix empty |
| `Prompt.RenderOneSlot` | utils/build_prompt.py:76 | a template with one field between two texts puts the instructions between them |
| `Prompt.RenderLength` | utils/build_prompt.py:76 | the rendered prompt is the template's text plus one copy of the instructions per field |
| `Prompt.InstructionsShape` | utils/build_prompt.py:65-75 | the instructions are the enabled style and content blocks, each followed by a blank line, then the profile section, a blank line and the structure section |
| `Prompt.OptionalBlocks` | utils/build_prompt.py:67-75 | with both flags off only the profile and structure sections remain; with both on the style and content blocks come first |
| `Prompt.BuildPrompt` | utils/build_prompt.py:49-78 | building fails iff sampling fails, whatever the flags, or the structure map is empty |
| `Prompt.BuildPromptResult` | utils/build_prompt.py:60-78 | a built prompt returns the profile's id unchanged and the picked structure's stem; the template is rendered with the instructions made of the style block then the content block, each only when its flag is on and each followed by a blank line, then the profile section, a blank line and that structure's section |
| `Prompt.PromptBuilder.constructor` | utils/build_prompt.py:12-20 | the builder holds the given sampler, loaders and template |
| `Prompt.NewPromptBuilder` | utils/build_prompt.py:12-20 | making a builder loads the enabled structures and fails iff one is missing; the new profile loader holds no profiles and no files |
| `Prompt.PromptBuilder.LoadProfiles` | utils/build_prompt.py:22-29 | a non-empty file list loads those files and leaves the recorded file list as it was; `None` or an empty list loads all profiles and records the sorted `.yml` names |
| `Prompt.PromptBuilder.GetRandomProfile` | utils/build_prompt.py:37-41 | delegates to the profile loader's random pick |
| `Prompt.PromptBuilder.Build` | utils/build_prompt.py:49-78 | the method returns what `BuildPrompt` gives for the loaded structures |
| `Generate.ExtractOutputContent` | generate.py:36-51 | the extracted text never starts or ends with whitespace; its value on every input is pinned by `ExtractBetweenTags`, `ExtractUnclosed` and `ExtractUntagged` |
| `Generate.ExtractBetweenTags` | generate.py:40-44 | for any response whose first `<OUTPUT>` is followed by a `</OUTPUT>`, the result is the stripped text between that tag and the first closing tag after it, newlines included |
| `Generate.ExtractUnclosed` | generate.py:40-51 | when the first `<OUTPUT>` has no `</OUTPUT>` after it, the result is the whole response stripped |
| `Generate.ExtractUntagged` | generate.py:49-51 | when the response has no `<OUTPUT>` at all, the result is the whole response stripped |
| `Generate.DocStampShape` | generate.py:77 | the 19-character stamp is date, underscore, time, underscore and the milliseconds padded to three digits |
| `Generate.DocStampLayout` | generate.py:77 | the stamp is 8 digits, `_`, 6 digits, `_`, 3 digits |
| `Generate.DocStampFields` | generate.py:77 | each field of the stamp reads back as its time value, the last as the milliseconds |
| `Generate.SameStamp` | generate.py:77 | two valid times give the same stamp iff they agree to the millisecond |
| `Generate.DocId` | generate.py:73-78 | the id has length structure + profile + 21 and ends with the stamp |
| `Generate.DocIdCollides` | generate.py:73-78 | for one structure and profile, two ids coincide iff the times agree to the millisecond |
| `Generate.Json` | generate.py:61-64 | the record always has `doc_id`, `doc_name == "synth"` and `prompt`, and has `content` iff content is not `None` |
| `Generate.FileNameInjective` | generate.py:66 | different ids go to different files |
| `Generate.OutputDir.SaveDocument` | generate.py:54-70 | saving writes the record under `{doc_id}.json` and leaves every other file unchanged |
| `Generate.SaveAllKeys` | generate.py:66-68 | after a run the directory holds the files that were there before, plus one per saved document |
| `Generate.SaveAllKeeps` | generate.py:66-68 | a file no saved document targets keeps its contents |
| `Generate.SaveAllLast` | generate.py:66-68 | a document's file holds that document unless a later one has the same id |
| `Generate.RoundOutcome` | generate.py:149-169 | an iteration fails iff the prompt cannot be built, and skips iff a client is in use and raises; a saved document has the built prompt, the id from its structure and profile, and stripped content iff a client is in use |
| `Generate.CollectError` | generate.py:145-194 | a run has no error iff no iteration fails; otherwise the error is the first failing iteration's, and the saved documents are those saved before it |
| `Generate.FirstError` | generate.py:149-151 | the position of the first iteration that fails to build its prompt, or the number of iterations when none fails |
| `Generate.CollectSavesYielded` | generate.py:145-194 | the saved documents are exactly the documents yielded by the iterations before the first failing one, in order, so a skip drops only its own document; the run has no error iff no iteration fails |
| `Generate.CollectSaved` | generate.py:145-194 | every saved document comes from some iteration, and there are no more of them than iterations |
| `Generate.CollectAllSaved` | generate.py:145-194 | when every iteration yields a document, all are saved, in order |
| `Generate.RunStopsAtError` | generate.py:149-151 | a prompt-building failure ends the run with that error and keeps what was saved before |
| `Generate.SavedContent` | generate.py:154-169 | every saved document has content iff a client is in use, and that content is stripped |
| `Generate.PromptOnlySavesEveryRound` | generate.py:154-169 | without a client, a run without error saves every visited item prompt-only, in order |
| `Generate.TotalDocs` | generate.py:138 | `count == -1` means the profile count; any other count is taken as given |
| `Generate.Visited` | generate.py:146-148 | the sequential loop visits `min(total_docs, n)` profiles, and none when `total_docs` is not positive |
| `Generate.SequentialRun` | generate.py:145-148 | an empty catalog raises in sequential mode |
| `Generate.AllProfilesWhenCountIsMinusOne` | generate.py:138-148 | with `count == -1` the sequential loop processes every profile exactly once, in load order |
| `Generate.Chosen` | generate.py:171-173 | random mode draws one profile per iteration, each a loaded profile chosen with replacement |
| `Generate.RandomRun` | generate.py:171-173 | random mode performs no draw for a non-positive total, and raises on an empty catalog otherwise |
| `Generate.EmptyCatalogModes` | generate.py:145-173 | with no profiles and no document requested, sequential mode raises and random mode does not |
| `Generate.Pipeline` | generate.py:108-145 | a client that fails to start ends the run before any document, and an unknown mode runs no loop |
| `Generate.MakeDocument` | generate.py:149-166 | the loop body up to saving gives the iteration's outcome |
| `Generate.Pass` | generate.py:149-169 | one iteration saves exactly the document it yields, and nothing on a skip or failure |
| `Generate.RunSequential` | generate.py:145-169 | the sequential loop leaves the directory and error of the sequential run |
| `Generate.SequentialLoop` | generate.py:146-169 | the enumerate loop with its `i > total_docs` break saves exactly what the iterations before the cap yield |
| `Generate.RunRandom` | generate.py:171-194 | the random loop leaves the directory and error of the random run |
| `Generate.RandomLoop` | generate.py:172-194 | the `range` loop draws a profile in each iteration and saves what the iterations yield; on an empty catalog the first draw raises and nothing is saved |
| `Generate.RunPipeline` | generate.py:130-194 | `main` from the loaded builder on leaves the directory and error of `Pipeline` |

## Left out

- The language-model clients (utils/llm_clients.py) are not part of this model. A reply is an input per document: a response text, or an exception.
- YAML parsing, file reading, globbing and JSON writing are left out. The directories are maps, a parsed file is an ordered entry list, and a saved record is a map from key to string.
- Logging, console output, `load_dotenv`, and loading `pipeline.yml` are left out. The configuration values are parameters of `Pipeline` and `RunPipeline`.
- `datetime.now()` is left out; the time is a `Timestamp` input.
- The float arithmetic of `random.random`, `random.choice` and `random.choices` is modelled with `real`, not IEEE doubles. The draws are inputs.
- `Sampling.WeightedChoice` does not model the `not finite` total check of `random.choices`, since reals are always finite.
- `str.format` is modelled only on templates whose braces are the one field. Other braces, which raise in Python, are not modelled.
- `Text.TitleAt`: title casing covers only ASCII letters; non-ASCII letters are treated as uncased. Whitespace follows Python's `str.isspace` set.
- A feature whose `description` or `probability` key is missing is not modelled, because the feature datatype always has both. In Python a missing `probability` raises `KeyError` when it is read.
- `Profiles.FileProfiles`: an empty profile file (`data` is `None`) and a null profile entry raise `AttributeError` in Python. The model has no null: an empty file is an empty entry list and loads nothing, and an entry always has a field map.
- `Sampling.Lookup`: a section, a catalog and a profile file are entry sequences, so they may repeat a key that a YAML mapping cannot hold. `Lookup` takes the first entry for a key, whereas PyYAML keeps the last.
- `Profiles.ProfileOfFields`: profile field values are strings. YAML numbers and booleans are not modelled.
- Template loading in `PromptBuilder.__init__` is left out; the template text is given.
- `Prompt.PromptBuilder.ProfileCount` and `Structures.StructureLoader.StructureCount` have no contract of their own. Their values after a load are stated by `Profiles.LoadAllCount` and `Structures.StructureCountAfterLoad`.
