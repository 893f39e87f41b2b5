/**
 * The generation pipeline (generate.py): for each selected profile, build a
 * prompt, optionally have the language model write the document, and save
 * one JSON record per document.
 *
 * The clock, the language model's replies and every random choice are
 * inputs, one `Round` per document.
 */
module Generate {

  import opened Basics
  import opened Text
  import opened Paths
  import opened Sampling
  import opened Profiles
  import opened Structures
  import opened Prompt

  const OpenTag := "<OUTPUT>"
  const CloseTag := "</OUTPUT>"

  /**
   * `extract_output_content`: the text between the first `<OUTPUT>` and the
   * first `</OUTPUT>` after it, stripped; without such a pair, the whole
   * response stripped.
   */
  function ExtractOutputContent(response: string): (r: string)
    ensures r == [] || (!IsSpace(r[0]) && !IsSpace(r[|r| - 1]))
  {
    match TaggedSpan(response)
    case None => StripIsTrimmed(response); Strip(response)
    case Some(span) => StripIsTrimmed(response[span.0..span.1]); Strip(response[span.0..span.1])
  }

  /** Where the text between the first `<OUTPUT>` and the first `</OUTPUT>` after it begins and ends. */
  function TaggedSpan(response: string): (r: Option<(nat, nat)>)
    ensures r.Some? ==> r.value.0 <= r.value.1 <= |response|
  {
    match Find(response, OpenTag, 0)
    case None => None
    case Some(i) =>
      match Find(response, CloseTag, i + |OpenTag|)
      case None => None
      case Some(j) => Some((i + |OpenTag|, j))
  }

  /**
   * With the first `<OUTPUT>` at `i` and the first `</OUTPUT>` after it at
   * `j`, the content is the text between them, stripped, whatever either
   * part contains.
   */
  lemma ExtractBetweenTags(s: string, i: nat, j: nat)
    requires OccursAt(s, OpenTag, i) && forall k :: 0 <= k < i ==> !OccursAt(s, OpenTag, k)
    requires i + |OpenTag| <= j && OccursAt(s, CloseTag, j)
    requires forall k :: i + |OpenTag| <= k < j ==> !OccursAt(s, CloseTag, k)
    ensures i + |OpenTag| <= j <= |s|
    ensures ExtractOutputContent(s) == Strip(s[i + |OpenTag|..j])
  {
    FindFirst(s, OpenTag, 0, i);
    FindFirst(s, CloseTag, i + |OpenTag|, j);
  }

  /** Without an opening tag the whole response is used, stripped. */
  lemma ExtractUntagged(response: string)
    requires forall k :: !OccursAt(response, OpenTag, k)
    ensures ExtractOutputContent(response) == Strip(response)
  {
  }

  /**
   * An opening tag with no closing tag after it does not match either: the
   * whole response is used, stripped.
   */
  lemma ExtractUnclosed(s: string, i: nat)
    requires OccursAt(s, OpenTag, i) && forall k :: 0 <= k < i ==> !OccursAt(s, OpenTag, k)
    requires forall k :: i + |OpenTag| <= k ==> !OccursAt(s, CloseTag, k)
    ensures ExtractOutputContent(s) == Strip(s)
  {
    FindFirst(s, OpenTag, 0, i);
    assert Find(s, CloseTag, i + |OpenTag|).None?;
  }

  /** The fields of `datetime.now()` the document id uses. */
  datatype Timestamp = Timestamp(year: nat, month: nat, day: nat, hour: nat, minute: nat, second: nat, microsecond: nat)

  predicate ValidTimestamp(t: Timestamp) {
    && 1000 <= t.year <= 9999 && 1 <= t.month <= 12 && 1 <= t.day <= 31
    && t.hour < 24 && t.minute < 60 && t.second < 60 && t.microsecond < 1000000
  }

  /** `strftime("%Y%m%d_%H%M%S_%f")`. */
  function Strftime(t: Timestamp): (r: string)
    ensures |r| == 22
  {
    ZeroPad(t.year, 4) + ZeroPad(t.month, 2) + ZeroPad(t.day, 2) + "_"
      + ZeroPad(t.hour, 2) + ZeroPad(t.minute, 2) + ZeroPad(t.second, 2) + "_"
      + ZeroPad(t.microsecond, 6)
  }

  /** The first 19 characters of the formatted time: the microseconds cut to milliseconds. */
  function DocStamp(t: Timestamp): string {
    Strftime(t)[..19]
  }

  /** Removing three decimal digits is dividing by a thousand. */
  lemma DropThreeDigits(n: nat)
    ensures DropDigits(n, 3) == n / 1000
  {
    var q1 := n / 10;
    var q2 := q1 / 10;
    var q3 := q2 / 10;
    assert DropDigits(n, 3) == DropDigits(q1, 2) == DropDigits(q2, 1) == DropDigits(q3, 0) == q3;
    assert n == 1000 * q3 + 100 * (q2 % 10) + 10 * (q1 % 10) + n % 10;
  }

  /** The stamp field by field, the last one being the milliseconds padded to three digits. */
  lemma DocStampShape(t: Timestamp)
    ensures DocStamp(t) == ZeroPad(t.year, 4) + ZeroPad(t.month, 2) + ZeroPad(t.day, 2) + "_"
      + ZeroPad(t.hour, 2) + ZeroPad(t.minute, 2) + ZeroPad(t.second, 2) + "_"
      + ZeroPad(t.microsecond / 1000, 3)
  {
    ZeroPadTake(t.microsecond, 6, 3);
    DropThreeDigits(t.microsecond);
    var head := ZeroPad(t.year, 4) + ZeroPad(t.month, 2) + ZeroPad(t.day, 2) + "_"
      + ZeroPad(t.hour, 2) + ZeroPad(t.minute, 2) + ZeroPad(t.second, 2) + "_";
    assert |head| == 16;
    assert Strftime(t) == head + ZeroPad(t.microsecond, 6);
    assert Strftime(t)[..19] == head + ZeroPad(t.microsecond, 6)[..3];
  }

  /** The stamp is eight digits, an underscore, six digits, an underscore and three digits. */
  lemma DocStampLayout(t: Timestamp)
    ensures var s := DocStamp(t);
      && |s| == 19 && s[8] == '_' && s[15] == '_'
      && forall k :: 0 <= k < 19 && k != 8 && k != 15 ==> IsDigit(s[k])
  {
    var s := DocStamp(t);
    DocStampShape(t);
    var a := ZeroPad(t.year, 4) + ZeroPad(t.month, 2) + ZeroPad(t.day, 2);
    var b := ZeroPad(t.hour, 2) + ZeroPad(t.minute, 2) + ZeroPad(t.second, 2);
    var c := ZeroPad(t.microsecond / 1000, 3);
    assert s == a + "_" + b + "_" + c;
    forall k | 0 <= k < 19 && k != 8 && k != 15 ensures IsDigit(s[k]) {
      if k < 8 {
        assert s[k] == a[k];
      } else if k < 15 {
        assert s[k] == b[k - 9];
      } else {
        assert s[k] == c[k - 16];
      }
    }
  }

  /** Each field of a stamp laid out as 8 + `_` + 6 + `_` + 3 characters sits at its fixed position. */
  lemma StampSlices(y: string, mo: string, d: string, h: string, mi: string, se: string, ms: string)
    requires |y| == 4 && |mo| == 2 && |d| == 2 && |h| == 2 && |mi| == 2 && |se| == 2 && |ms| == 3
    ensures var s := y + mo + d + "_" + h + mi + se + "_" + ms;
      && s[..4] == y && s[4..6] == mo && s[6..8] == d && s[9..11] == h
      && s[11..13] == mi && s[13..15] == se && s[16..19] == ms
  {
  }

  /**
   * The stamp reads back as the time to the millisecond: each field parses
   * to its value, and the last three digits are the milliseconds.
   */
  lemma DocStampFields(t: Timestamp)
    requires ValidTimestamp(t)
    ensures var s := DocStamp(t);
      && |s| == 19
      && DecimalValue(s[..4]) == t.year && DecimalValue(s[4..6]) == t.month
      && DecimalValue(s[6..8]) == t.day && DecimalValue(s[9..11]) == t.hour
      && DecimalValue(s[11..13]) == t.minute && DecimalValue(s[13..15]) == t.second
      && DecimalValue(s[16..19]) == t.microsecond / 1000
  {
    DocStampShape(t);
    StampSlices(ZeroPad(t.year, 4), ZeroPad(t.month, 2), ZeroPad(t.day, 2),
      ZeroPad(t.hour, 2), ZeroPad(t.minute, 2), ZeroPad(t.second, 2), ZeroPad(t.microsecond / 1000, 3));
    ZeroPadValue(t.year, 4, 10000);
    ZeroPadValue(t.month, 2, 100);
    ZeroPadValue(t.day, 2, 100);
    ZeroPadValue(t.hour, 2, 100);
    ZeroPadValue(t.minute, 2, 100);
    ZeroPadValue(t.second, 2, 100);
    ZeroPadValue(t.microsecond / 1000, 3, 1000);
  }

  /** Two times agree to the millisecond. */
  predicate SameMillisecond(t1: Timestamp, t2: Timestamp) {
    && t1.year == t2.year && t1.month == t2.month && t1.day == t2.day
    && t1.hour == t2.hour && t1.minute == t2.minute && t1.second == t2.second
    && t1.microsecond / 1000 == t2.microsecond / 1000
  }

  /** Two valid times have the same stamp exactly when they agree to the millisecond. */
  lemma SameStamp(t1: Timestamp, t2: Timestamp)
    requires ValidTimestamp(t1) && ValidTimestamp(t2)
    ensures DocStamp(t1) == DocStamp(t2) <==> SameMillisecond(t1, t2)
  {
    DocStampShape(t1);
    DocStampShape(t2);
    if DocStamp(t1) == DocStamp(t2) {
      DocStampFields(t1);
      DocStampFields(t2);
    }
  }

  /** `generate_doc_id`: `{structure}_{profile}_{timestamp}`. */
  function DocId(structureName: string, profileId: string, t: Timestamp): (r: string)
    ensures |r| == |structureName| + |profileId| + 21
    ensures r[|r| - 19..] == DocStamp(t)
  {
    structureName + "_" + profileId + "_" + DocStamp(t)
  }

  /**
   * For one structure and one profile, two documents get the same id exactly
   * when they are made within the same millisecond.
   */
  lemma DocIdCollides(structureName: string, profileId: string, t1: Timestamp, t2: Timestamp)
    requires ValidTimestamp(t1) && ValidTimestamp(t2)
    ensures DocId(structureName, profileId, t1) == DocId(structureName, profileId, t2) <==> SameMillisecond(t1, t2)
  {
    SameStamp(t1, t2);
    var a := DocId(structureName, profileId, t1);
    var b := DocId(structureName, profileId, t2);
    if a == b {
      assert DocStamp(t1) == a[|a| - 19..] == DocStamp(t2);
    }
  }

  /** One document as saved: its id, the prompt, and the generated text when there is one. */
  datatype Document = Document(docId: string, prompt: string, content: Option<string>)

  const DocName := "synth"

  /** The JSON object `save_document` writes: the content key only when there is content. */
  function Json(d: Document): (r: map<string, string>)
    ensures r.Keys == {"doc_id", "doc_name", "prompt"} + (if d.content.Some? then {"content"} else {})
    ensures r["doc_id"] == d.docId && r["doc_name"] == DocName && r["prompt"] == d.prompt
    ensures d.content.Some? ==> r["content"] == d.content.value
  {
    var base := map["doc_id" := d.docId, "doc_name" := DocName, "prompt" := d.prompt];
    if d.content.Some? then base["content" := d.content.value] else base
  }

  /** The file a document is saved to, inside the output directory. */
  function FileName(d: Document): string {
    d.docId + ".json"
  }

  /** Different ids give different file names. */
  lemma FileNameInjective(d1: Document, d2: Document)
    requires d1.docId != d2.docId
    ensures FileName(d1) != FileName(d2)
  {
    if |d1.docId| == |d2.docId| {
      assert FileName(d1)[..|d1.docId|] == d1.docId;
      assert FileName(d2)[..|d2.docId|] == d2.docId;
    }
  }

  /** The output directory as files by name, each holding one JSON object. */
  type Files = map<string, map<string, string>>

  /** The output directory after saving the documents in order; a later one replaces an earlier one of the same id. */
  function SaveAll(files: Files, docs: seq<Document>): Files {
    if docs == [] then files
    else SaveAll(files, docs[..|docs| - 1])[FileName(docs[|docs| - 1]) := Json(docs[|docs| - 1])]
  }

  /** After saving, the files are the ones there before and one per saved document. */
  lemma {:induction false} SaveAllKeys(files: Files, docs: seq<Document>)
    ensures SaveAll(files, docs).Keys == files.Keys + set d | d in docs :: FileName(d)
  {
    if docs != [] {
      var front := docs[..|docs| - 1];
      SaveAllKeys(files, front);
      assert docs == front + [docs[|docs| - 1]];
      assert (set d | d in docs :: FileName(d)) == (set d | d in front :: FileName(d)) + {FileName(docs[|docs| - 1])};
    }
  }

  /** A file no saved document is written to keeps its contents. */
  lemma {:induction false} SaveAllKeeps(files: Files, docs: seq<Document>, f: string)
    requires f in files && forall d :: d in docs ==> FileName(d) != f
    ensures f in SaveAll(files, docs) && SaveAll(files, docs)[f] == files[f]
  {
    if docs != [] {
      var front := docs[..|docs| - 1];
      assert forall d :: d in front ==> d in docs;
      SaveAllKeeps(files, front, f);
    }
  }

  /** A document's file holds that document unless a later one has the same id. */
  lemma {:induction false} SaveAllLast(files: Files, docs: seq<Document>, k: nat)
    requires k < |docs| && forall l :: k < l < |docs| ==> docs[l].docId != docs[k].docId
    ensures FileName(docs[k]) in SaveAll(files, docs) && SaveAll(files, docs)[FileName(docs[k])] == Json(docs[k])
  {
    var n := |docs|;
    var front := docs[..n - 1];
    if k < n - 1 {
      assert front[k] == docs[k];
      SaveAllLast(files, front, k);
      FileNameInjective(docs[n - 1], docs[k]);
    }
  }

  /** The output directory, whose files the pipeline writes. */
  class OutputDir {
    var files: Files

    constructor(files: Files)
      ensures this.files == files
    {
      this.files := files;
    }

    /** `save_document`: writes the record as `{doc_id}.json`, replacing a file of that name. */
    method SaveDocument(docId: string, prompt: string, content: Option<string>)
      modifies this
      ensures files == old(files)[docId + ".json" := Json(Document(docId, prompt, content))]
    {
      var d := Document(docId, prompt, content);
      files := files[FileName(d) := Json(d)];
    }
  }

  /** What `llm_client.generate` does with a prompt: returns a response, or raises. */
  datatype Reply = Response(text: string) | Raised

  /** The inputs of one document: the random choices, the clock and the model's reply. */
  datatype Round = Round(profilePick: nat, draws: Draws, stamp: Timestamp, reply: Reply)

  /** The fixed parts of a run: what the builder holds and the prompt options. */
  datatype Setup = Setup(
    sampler: ConfigSampler,
    template: Template,
    structures: map<string, string>,
    includeStyle: bool,
    includeContent: bool,
    withClient: bool)

  predicate RoundFits(st: Setup, r: Round) {
    DrawsFit(st.sampler, st.structures, r.draws)
  }

  predicate RoundsFit(st: Setup, rounds: seq<Round>) {
    forall i :: 0 <= i < |rounds| ==> RoundFits(st, rounds[i])
  }

  /**
   * What one pass of the loop body yields: the document to save, nothing
   * when the model raised (the pass is skipped), or the error that ends the
   * run.
   */
  type Outcome = Result<Option<Document>>

  function RoundDocument(st: Setup, profile: Profile, r: Round): Outcome
    requires RoundFits(st, r)
  {
    match BuildPrompt(st.sampler, st.template, st.structures, profile, st.includeStyle, st.includeContent, r.draws)
    case Err(e) => Err(e)
    case Ok(b) =>
      var id := DocId(b.structureName, b.profileId, r.stamp);
      if !st.withClient then Ok(Some(Document(id, b.prompt, None)))
      else match r.reply
        case Raised => Ok(None)
        case Response(text) => Ok(Some(Document(id, b.prompt, Some(ExtractOutputContent(text)))))
  }

  /** Stripping a string that neither starts nor ends with whitespace changes nothing. */
  lemma StripOfTrimmed(s: string)
    requires s == [] || (!IsSpace(s[0]) && !IsSpace(s[|s| - 1]))
    ensures Strip(s) == s
  {
  }

  /**
   * A pass fails exactly when the prompt cannot be built, and skips exactly
   * when a model is in use and raises; a saved document has the built
   * prompt, the id of the built prompt's structure and profile, and content
   * exactly when a model is in use, already stripped.
   */
  lemma RoundOutcome(st: Setup, profile: Profile, r: Round)
    requires RoundFits(st, r)
    ensures var built := BuildPrompt(st.sampler, st.template, st.structures, profile, st.includeStyle, st.includeContent, r.draws);
      var out := RoundDocument(st, profile, r);
      && (out.Err? <==> built.Err?)
      && (built.Err? ==> out.error == built.error)
      && (out == Ok(None) <==> built.Ok? && st.withClient && r.reply.Raised?)
      && (out.Ok? && out.value.Some? ==>
            && built.Ok?
            && out.value.value.prompt == built.value.prompt
            && out.value.value.docId == DocId(built.value.structureName, built.value.profileId, r.stamp)
            && (out.value.value.content.Some? <==> st.withClient)
            && (out.value.value.content.Some? ==> Strip(out.value.value.content.value) == out.value.value.content.value))
  {
    var out := RoundDocument(st, profile, r);
    if out.Ok? && out.value.Some? && out.value.value.content.Some? {
      StripOfTrimmed(out.value.value.content.value);
    }
  }

  /** What a run leaves: the documents saved, in order, and the error that stopped it, if any. */
  datatype Run = Run(saved: seq<Document>, error: Option<Error>)

  /** Running passes in order: save each document, skip a raised one, stop at the first error. */
  function Collect(outcomes: seq<Outcome>): Run {
    if outcomes == [] then Run([], None)
    else
      var before := Collect(outcomes[..|outcomes| - 1]);
      if before.error.Some? then before
      else match outcomes[|outcomes| - 1]
        case Err(e) => Run(before.saved, Some(e))
        case Ok(None) => before
        case Ok(Some(d)) => Run(before.saved + [d], None)
  }

  /** Once a pass fails, the passes after it change nothing. */
  lemma {:induction false} CollectStops(outcomes: seq<Outcome>, k: nat)
    requires k <= |outcomes| && Collect(outcomes[..k]).error.Some?
    ensures Collect(outcomes) == Collect(outcomes[..k])
    decreases |outcomes| - k
  {
    if k < |outcomes| {
      var n := |outcomes|;
      assert outcomes[..n - 1][..k] == outcomes[..k];
      CollectStops(outcomes[..n - 1], k);
    } else {
      assert outcomes[..k] == outcomes;
    }
  }

  /**
   * A run has no error exactly when no pass fails; otherwise the error is
   * the first failing pass's, and what was saved is what the passes before
   * it saved.
   */
  lemma {:induction false} CollectError(outcomes: seq<Outcome>)
    ensures Collect(outcomes).error.None? <==> forall i :: 0 <= i < |outcomes| ==> outcomes[i].Ok?
    ensures Collect(outcomes).error.Some? ==>
      exists k :: 0 <= k < |outcomes|
        && outcomes[k] == Err(Collect(outcomes).error.value)
        && (forall j :: 0 <= j < k ==> outcomes[j].Ok?)
        && Collect(outcomes[..k]) == Run(Collect(outcomes).saved, None)
  {
    if outcomes != [] {
      var n := |outcomes|;
      var front := outcomes[..n - 1];
      CollectError(front);
      var before := Collect(front);
      if before.error.Some? {
        var k :| 0 <= k < n - 1
          && front[k] == Err(before.error.value)
          && (forall j :: 0 <= j < k ==> front[j].Ok?)
          && Collect(front[..k]) == Run(before.saved, None);
        assert front[..k] == outcomes[..k];
        assert Collect(outcomes) == before;
        forall j | 0 <= j < k ensures outcomes[j].Ok? {
          assert front[j] == outcomes[j];
        }
        assert outcomes[k] == front[k];
      } else {
        forall j | 0 <= j < n - 1 ensures outcomes[j].Ok? {
          assert front[j] == outcomes[j];
        }
        if outcomes[n - 1].Err? {
          assert outcomes[..n - 1] == front;
          assert Collect(outcomes) == Run(before.saved, Some(outcomes[n - 1].error));
        }
      }
    }
  }

  /** Every saved document is the document of some pass, and there are no more of them than passes. */
  lemma {:induction false} CollectSaved(outcomes: seq<Outcome>)
    ensures |Collect(outcomes).saved| <= |outcomes|
    ensures forall d :: d in Collect(outcomes).saved ==> Ok(Some(d)) in outcomes
  {
    if outcomes != [] {
      var front := outcomes[..|outcomes| - 1];
      CollectSaved(front);
      assert forall o :: o in front ==> o in outcomes;
    }
  }

  /** The documents the passes yield, in order: a skipped or failed pass yields none. */
  function Yielded(outcomes: seq<Outcome>): seq<Document> {
    if outcomes == [] then []
    else Yielded(outcomes[..|outcomes| - 1]) + match outcomes[|outcomes| - 1]
      case Ok(Some(d)) => [d]
      case _ => []
  }

  /** The position of the first failing pass, or the number of passes when none fails. */
  function FirstError(outcomes: seq<Outcome>): (k: nat)
    ensures k <= |outcomes|
    ensures forall j :: 0 <= j < k ==> outcomes[j].Ok?
    ensures k < |outcomes| ==> outcomes[k].Err?
  {
    if outcomes == [] then 0
    else
      var n := |outcomes|;
      var f := FirstError(outcomes[..n - 1]);
      if f < n - 1 then f else if outcomes[n - 1].Err? then n - 1 else n
  }

  /**
   * A run saves exactly the documents yielded before the first failing pass,
   * in order: a skipped pass drops only its own document, and the passes
   * after it still save theirs.
   */
  lemma {:induction false} CollectSavesYielded(outcomes: seq<Outcome>)
    ensures Collect(outcomes).saved == Yielded(outcomes[..FirstError(outcomes)])
    ensures Collect(outcomes).error.None? <==> FirstError(outcomes) == |outcomes|
  {
    if outcomes != [] {
      var n := |outcomes|;
      var front := outcomes[..n - 1];
      CollectSavesYielded(front);
      var f := FirstError(front);
      if f < n - 1 {
        assert front[..f] == outcomes[..f];
      } else {
        assert front[..f] == front;
        assert outcomes[..n - 1] == front;
        assert outcomes[..n] == outcomes;
      }
    }
  }

  /** When every pass yields a document, the run saves all of them in order, with no error. */
  lemma {:induction false} CollectAllSaved(outcomes: seq<Outcome>)
    requires forall i :: 0 <= i < |outcomes| ==> outcomes[i].Ok? && outcomes[i].value.Some?
    ensures Collect(outcomes).error.None? && |Collect(outcomes).saved| == |outcomes|
    ensures forall i :: 0 <= i < |outcomes| ==> Collect(outcomes).saved[i] == outcomes[i].value.value
  {
    if outcomes != [] {
      var n := |outcomes|;
      var front := outcomes[..n - 1];
      CollectAllSaved(front);
      assert Collect(outcomes).saved == Collect(front).saved + [outcomes[n - 1].value.value];
    }
  }

  /** One more pass, on a run that has not failed yet. */
  lemma CollectStep(outcomes: seq<Outcome>, i: nat)
    requires i < |outcomes| && Collect(outcomes[..i]).error.None?
    ensures Collect(outcomes[..i + 1]) == match outcomes[i]
      case Err(e) => Run(Collect(outcomes[..i]).saved, Some(e))
      case Ok(None) => Collect(outcomes[..i])
      case Ok(Some(d)) => Run(Collect(outcomes[..i]).saved + [d], None)
  {
    assert outcomes[..i + 1][..i] == outcomes[..i];
  }

  /** The output directory after one pass: a document is saved, anything else writes nothing. */
  function SaveOutcome(files: Files, o: Outcome): Files {
    match o
    case Ok(Some(d)) => files[FileName(d) := Json(d)]
    case _ => files
  }

  /** A pass that does not fail saves what the run adds, and the run goes on without error. */
  lemma SaveStep(files: Files, outcomes: seq<Outcome>, i: nat)
    requires i < |outcomes| && Collect(outcomes[..i]).error.None? && outcomes[i].Ok?
    ensures Collect(outcomes[..i + 1]).error.None?
    ensures SaveAll(files, Collect(outcomes[..i + 1]).saved) == SaveOutcome(SaveAll(files, Collect(outcomes[..i]).saved), outcomes[i])
  {
    CollectStep(outcomes, i);
    var before := Collect(outcomes[..i]).saved;
    if outcomes[i].value.Some? {
      var d := outcomes[i].value.value;
      assert (before + [d])[..|before|] == before;
    }
  }

  /** The passes over the given profiles, profile `i` with round `i`. */
  function Outcomes(st: Setup, profiles: seq<Profile>, rounds: seq<Round>): (os: seq<Outcome>)
    requires |rounds| >= |profiles| && RoundsFit(st, rounds)
    ensures |os| == |profiles|
  {
    seq(|profiles|, i requires 0 <= i < |profiles| => RoundDocument(st, profiles[i], rounds[i]))
  }

  /** The loop over the given profiles, up to the first error. */
  function RunProfiles(st: Setup, profiles: seq<Profile>, rounds: seq<Round>): Run
    requires |rounds| >= |profiles| && RoundsFit(st, rounds)
  {
    Collect(Outcomes(st, profiles, rounds))
  }

  /**
   * A run stops at the first profile whose prompt cannot be built, with
   * that error, keeping what the profiles before it saved.
   */
  lemma RunStopsAtError(st: Setup, profiles: seq<Profile>, rounds: seq<Round>)
    requires |rounds| >= |profiles| && RoundsFit(st, rounds)
    ensures var run := RunProfiles(st, profiles, rounds);
      run.error.Some? ==>
        exists k :: 0 <= k < |profiles|
          && BuildPrompt(st.sampler, st.template, st.structures, profiles[k], st.includeStyle, st.includeContent, rounds[k].draws)
             == Err(run.error.value)
          && Collect(Outcomes(st, profiles, rounds)[..k]) == Run(run.saved, None)
  {
    var os := Outcomes(st, profiles, rounds);
    CollectError(os);
    if Collect(os).error.Some? {
      var k :| 0 <= k < |os|
        && os[k] == Err(Collect(os).error.value)
        && (forall j :: 0 <= j < k ==> os[j].Ok?)
        && Collect(os[..k]) == Run(Collect(os).saved, None);
      RoundOutcome(st, profiles[k], rounds[k]);
    }
  }

  /**
   * Every saved document carries generated content exactly when a model is
   * in use, and that content is already stripped.
   */
  lemma SavedContent(st: Setup, profiles: seq<Profile>, rounds: seq<Round>)
    requires |rounds| >= |profiles| && RoundsFit(st, rounds)
    ensures var saved := RunProfiles(st, profiles, rounds).saved;
      && |saved| <= |profiles|
      && forall d :: d in saved ==>
           && (d.content.Some? <==> st.withClient)
           && (d.content.Some? ==> Strip(d.content.value) == d.content.value)
  {
    var os := Outcomes(st, profiles, rounds);
    CollectSaved(os);
    forall d | d in Collect(os).saved
      ensures (d.content.Some? <==> st.withClient) && (d.content.Some? ==> Strip(d.content.value) == d.content.value)
    {
      var i :| 0 <= i < |os| && os[i] == Ok(Some(d));
      RoundOutcome(st, profiles[i], rounds[i]);
    }
  }

  /**
   * Without a model, a run without error saves one document per profile, in
   * order, each holding that profile's prompt and no content.
   */
  lemma PromptOnlySavesEveryRound(st: Setup, profiles: seq<Profile>, rounds: seq<Round>)
    requires |rounds| >= |profiles| && RoundsFit(st, rounds) && !st.withClient
    requires RunProfiles(st, profiles, rounds).error.None?
    ensures var saved := RunProfiles(st, profiles, rounds).saved;
      && |saved| == |profiles|
      && forall k :: 0 <= k < |profiles| ==>
           && BuildPrompt(st.sampler, st.template, st.structures, profiles[k], st.includeStyle, st.includeContent, rounds[k].draws).Ok?
           && saved[k].prompt == BuildPrompt(st.sampler, st.template, st.structures, profiles[k], st.includeStyle, st.includeContent, rounds[k].draws).value.prompt
           && saved[k].content.None?
  {
    var os := Outcomes(st, profiles, rounds);
    CollectError(os);
    forall i | 0 <= i < |os| ensures os[i].Ok? && os[i].value.Some? {
      RoundOutcome(st, profiles[i], rounds[i]);
    }
    CollectAllSaved(os);
    forall k | 0 <= k < |profiles|
      ensures && BuildPrompt(st.sampler, st.template, st.structures, profiles[k], st.includeStyle, st.includeContent, rounds[k].draws).Ok?
              && Collect(os).saved[k].prompt == BuildPrompt(st.sampler, st.template, st.structures, profiles[k], st.includeStyle, st.includeContent, rounds[k].draws).value.prompt
              && Collect(os).saved[k].content.None?
    {
      RoundOutcome(st, profiles[k], rounds[k]);
      assert os[k] == RoundDocument(st, profiles[k], rounds[k]);
      assert Collect(os).saved[k] == os[k].value.value;
    }
  }

  /** `builder.get_profile_count() if count == -1 else count`. */
  function TotalDocs(count: int, profileCount: nat): (total: int)
    ensures count == -1 ==> total == profileCount
    ensures count != -1 ==> total == count
  {
    if count == -1 then profileCount else count
  }

  /** How many profiles the sequential loop visits before `i > total_docs` breaks it. */
  function Visited(total: int, n: nat): (v: nat)
    ensures v <= n
    ensures total >= n ==> v == n
    ensures 0 <= total <= n ==> v == total
    ensures total <= 0 ==> v == 0
  {
    if total <= 0 then 0 else if total < n then total else n
  }

  /**
   * Sequential mode: the first `total` profiles in load order; an empty
   * catalog raises as soon as the loop asks for the profiles, even when no
   * document is wanted.
   */
  function SequentialRun(st: Setup, profiles: seq<Profile>, total: int, rounds: seq<Round>): (run: Run)
    requires |rounds| >= |profiles| && RoundsFit(st, rounds)
    ensures profiles == [] ==> run == Run([], Some(NoProfilesLoaded))
  {
    match Profiles.SequentialProfiles(profiles)
    case Err(e) => Run([], Some(e))
    case Ok(ps) => RunProfiles(st, ps[..Visited(total, |ps|)], rounds)
  }

  predicate PicksFit(profiles: seq<Profile>, rounds: seq<Round>) {
    forall i :: 0 <= i < |rounds| ==> rounds[i].profilePick < |profiles|
  }

  /** The profiles the random draws choose, one per round, with replacement. */
  function Chosen(profiles: seq<Profile>, rounds: seq<Round>): (r: seq<Profile>)
    requires profiles != [] && PicksFit(profiles, rounds)
    ensures |r| == |rounds|
    ensures forall i :: 0 <= i < |rounds| ==> r[i] in profiles && Ok(r[i]) == RandomProfile(profiles, rounds[i].profilePick)
  {
    seq(|rounds|, i requires 0 <= i < |rounds| => profiles[rounds[i].profilePick])
  }

  /** Round `i` of the first `n` uses the profile its pick names. */
  lemma ChosenAt(profiles: seq<Profile>, rounds: seq<Round>, n: nat, i: nat)
    requires profiles != [] && PicksFit(profiles, rounds) && i < n <= |rounds|
    ensures rounds[i].profilePick < |profiles| && Chosen(profiles, rounds[..n])[i] == profiles[rounds[i].profilePick]
  {
    assert rounds[..n][i] == rounds[i];
  }

  /**
   * Random mode: `total` rounds, each on a profile drawn with replacement;
   * an empty catalog raises on the first round, and no round runs when
   * `total` is not positive.
   */
  function RandomRun(st: Setup, profiles: seq<Profile>, total: int, rounds: seq<Round>): (run: Run)
    requires |rounds| >= total && RoundsFit(st, rounds) && (profiles == [] || PicksFit(profiles, rounds))
    ensures total <= 0 ==> run == Run([], None)
    ensures total > 0 && profiles == [] ==> run == Run([], Some(NoProfilesLoaded))
  {
    if total <= 0 then Run([], None)
    else if profiles == [] then Run([], Some(RandomProfile(profiles, 0).error))
    else RunProfiles(st, Chosen(profiles, rounds[..total]), rounds)
  }

  /** With `count: -1` the sequential mode visits every profile once, in load order. */
  lemma AllProfilesWhenCountIsMinusOne(st: Setup, profiles: seq<Profile>, rounds: seq<Round>)
    requires |rounds| >= |profiles| && RoundsFit(st, rounds) && profiles != []
    ensures SequentialRun(st, profiles, TotalDocs(-1, |profiles|), rounds) == RunProfiles(st, profiles, rounds)
  {
    assert profiles[..|profiles|] == profiles;
  }

  /** With no profile loaded, asking for no document is an error in sequential mode but not in random mode. */
  lemma EmptyCatalogModes(st: Setup, total: int, rounds: seq<Round>)
    requires total <= 0 && RoundsFit(st, rounds)
    ensures SequentialRun(st, [], total, rounds).error == Some(NoProfilesLoaded)
    ensures RandomRun(st, [], total, rounds).error.None?
  {
  }

  /** How `llm.enabled` and the client factory turn out. */
  datatype ClientSetup = Disabled | Ready | InitFails

  /**
   * `main` after the builder is made and the profiles are loaded: a client
   * that fails to start ends the run before any document; any mode other
   * than the two known ones runs no loop.
   */
  function Pipeline(st: Setup, client: ClientSetup, mode: string, count: int, profiles: seq<Profile>, rounds: seq<Round>): (run: Run)
    requires st.withClient == client.Ready?
    requires |rounds| >= |profiles| && |rounds| >= TotalDocs(count, |profiles|) && RoundsFit(st, rounds)
    requires profiles == [] || PicksFit(profiles, rounds)
    ensures client.InitFails? ==> run == Run([], None)
    ensures mode != "sequential" && mode != "random" ==> run == Run([], None)
  {
    var total := TotalDocs(count, |profiles|);
    if client.InitFails? then Run([], None)
    else if mode == "sequential" then SequentialRun(st, profiles, total, rounds)
    else if mode == "random" then RandomRun(st, profiles, total, rounds)
    else Run([], None)
  }

  /** The fixed parts of a run, read off the builder. */
  function SetupOf(builder: PromptBuilder, includeStyle: bool, includeContent: bool, withClient: bool): Setup
    reads builder.structureLoader
  {
    Setup(builder.sampler, builder.template, builder.structureLoader.structures, includeStyle, includeContent, withClient)
  }

  /**
   * The loop body up to saving: build the prompt, make the id, and ask the
   * model when there is one; `None` when the model raises.
   */
  method MakeDocument(builder: PromptBuilder, profile: Profile, round: Round, withClient: bool,
                      includeStyle: bool, includeContent: bool, ghost st: Setup) returns (r: Outcome)
    requires st == SetupOf(builder, includeStyle, includeContent, withClient) && RoundFits(st, round)
    ensures r == RoundDocument(st, profile, round)
  {
    var built := builder.Build(profile, includeStyle, includeContent, round.draws);
    if built.Err? {
      return Err(built.error);
    }
    var docId := DocId(built.value.structureName, built.value.profileId, round.stamp);
    var content: Option<string> := None;
    if withClient {
      match round.reply
      case Raised =>
        return Ok(None);
      case Response(text) =>
        content := Some(ExtractOutputContent(text));
    }
    r := Ok(Some(Document(docId, built.value.prompt, content)));
  }

  /** One pass of either loop: make the document and save it when there is one. */
  method Pass(builder: PromptBuilder, out: OutputDir, profile: Profile, round: Round, withClient: bool,
              includeStyle: bool, includeContent: bool, ghost st: Setup) returns (o: Outcome)
    requires st == SetupOf(builder, includeStyle, includeContent, withClient) && RoundFits(st, round)
    modifies out
    ensures o == RoundDocument(st, profile, round)
    ensures out.files == SaveOutcome(old(out.files), o)
  {
    o := MakeDocument(builder, profile, round, withClient, includeStyle, includeContent, st);
    if o.Ok? && o.value.Some? {
      var d := o.value.value;
      out.SaveDocument(d.docId, d.prompt, d.content);
    }
  }

  /** The sequential loop: `enumerate` over the profiles in load order, stopping once `i > total_docs`. */
  method RunSequential(builder: PromptBuilder, out: OutputDir, total: int, withClient: bool,
                       includeStyle: bool, includeContent: bool, rounds: seq<Round>) returns (error: Option<Error>)
    requires |rounds| >= |builder.profileLoader.allProfiles|
    requires RoundsFit(SetupOf(builder, includeStyle, includeContent, withClient), rounds)
    modifies out
    ensures var run := SequentialRun(SetupOf(builder, includeStyle, includeContent, withClient),
                                     builder.profileLoader.allProfiles, total, rounds);
      && out.files == SaveAll(old(out.files), run.saved)
      && error == run.error
  {
    var profiles := builder.SequentialProfiles();
    if profiles.Err? {
      return Some(profiles.error);
    }
    ghost var st := SetupOf(builder, includeStyle, includeContent, withClient);
    ghost var ps := profiles.value;
    ghost var visit := Visited(total, |ps|);
    ghost var os := Outcomes(st, ps[..visit], rounds);
    forall j | 0 <= j < |os| ensures os[j] == RoundDocument(st, ps[j], rounds[j]) {
      assert ps[..visit][j] == ps[j];
    }
    error := SequentialLoop(builder, out, profiles.value, total, withClient, includeStyle, includeContent, rounds, st, os);
  }

  /**
   * The passes of the sequential loop over the profiles in load order; `os`
   * holds what each pass yields.
   */
  method SequentialLoop(builder: PromptBuilder, out: OutputDir, ps: seq<Profile>, total: int, withClient: bool,
                        includeStyle: bool, includeContent: bool, rounds: seq<Round>,
                        ghost st: Setup, ghost os: seq<Outcome>) returns (error: Option<Error>)
    requires st == SetupOf(builder, includeStyle, includeContent, withClient)
    requires |rounds| >= |ps| && RoundsFit(st, rounds)
    requires |os| == Visited(total, |ps|)
    requires forall j {:trigger ps[j]} :: 0 <= j < |os| ==> os[j] == RoundDocument(st, ps[j], rounds[j])
    modifies out
    ensures out.files == SaveAll(old(out.files), Collect(os).saved) && error == Collect(os).error
  {
    ghost var files := out.files;
    var i := 0;
    while i < |ps|
      invariant 0 <= i <= |os|
      invariant Collect(os[..i]).error.None?
      invariant out.files == SaveAll(files, Collect(os[..i]).saved)
    {
      if i + 1 > total {
        break;
      }
      var o := Pass(builder, out, ps[i], rounds[i], withClient, includeStyle, includeContent, st);
      if o.Err? {
        CollectStep(os, i);
        CollectStops(os, i + 1);
        return Some(o.error);
      }
      SaveStep(files, os, i);
      i := i + 1;
    }
    assert os[..i] == os;
    error := None;
  }

  /** The random loop: `range(1, total_docs + 1)`, drawing a profile on each pass. */
  method RunRandom(builder: PromptBuilder, out: OutputDir, total: int, withClient: bool,
                   includeStyle: bool, includeContent: bool, rounds: seq<Round>) returns (error: Option<Error>)
    requires |rounds| >= total
    requires RoundsFit(SetupOf(builder, includeStyle, includeContent, withClient), rounds)
    requires builder.profileLoader.allProfiles == [] || PicksFit(builder.profileLoader.allProfiles, rounds)
    modifies out
    ensures var run := RandomRun(SetupOf(builder, includeStyle, includeContent, withClient),
                                 builder.profileLoader.allProfiles, total, rounds);
      && out.files == SaveAll(old(out.files), run.saved)
      && error == run.error
  {
    if total <= 0 {
      return None;
    }
    ghost var st := SetupOf(builder, includeStyle, includeContent, withClient);
    ghost var all := builder.profileLoader.allProfiles;
    ghost var os: seq<Outcome> := if all == [] then [] else Outcomes(st, Chosen(all, rounds[..total]), rounds);
    if all != [] {
      forall j | 0 <= j < |os| ensures os[j] == RoundDocument(st, all[rounds[j].profilePick], rounds[j]) {
        ChosenAt(all, rounds, total, j);
      }
    }
    error := RandomLoop(builder, out, total, withClient, includeStyle, includeContent, rounds, st, os);
  }

  /**
   * The passes of the random loop; each draws its profile first, and an
   * empty catalog raises on the first draw. When the catalog is not empty,
   * `os` holds what each pass yields.
   */
  method RandomLoop(builder: PromptBuilder, out: OutputDir, total: nat, withClient: bool,
                    includeStyle: bool, includeContent: bool, rounds: seq<Round>,
                    ghost st: Setup, ghost os: seq<Outcome>) returns (error: Option<Error>)
    requires st == SetupOf(builder, includeStyle, includeContent, withClient)
    requires 0 < total <= |rounds| && RoundsFit(st, rounds)
    requires builder.profileLoader.allProfiles == [] || PicksFit(builder.profileLoader.allProfiles, rounds)
    requires builder.profileLoader.allProfiles != [] ==> |os| == total
    requires builder.profileLoader.allProfiles != [] ==> forall j {:trigger rounds[j]} :: 0 <= j < |os| ==>
      os[j] == RoundDocument(st, builder.profileLoader.allProfiles[rounds[j].profilePick], rounds[j])
    modifies out
    ensures builder.profileLoader.allProfiles == [] ==> out.files == old(out.files) && error == Some(NoProfilesLoaded)
    ensures builder.profileLoader.allProfiles != [] ==>
      out.files == SaveAll(old(out.files), Collect(os).saved) && error == Collect(os).error
  {
    ghost var files := out.files;
    ghost var empty := builder.profileLoader.allProfiles == [];
    var i := 0;
    while i < total
      invariant 0 <= i <= total
      invariant empty ==> i == 0 && out.files == files
      invariant !empty ==> Collect(os[..i]).error.None? && out.files == SaveAll(files, Collect(os[..i]).saved)
    {
      var profile := builder.GetRandomProfile(rounds[i].profilePick);
      if profile.Err? {
        return Some(profile.error);
      }
      var o := Pass(builder, out, profile.value, rounds[i], withClient, includeStyle, includeContent, st);
      if o.Err? {
        CollectStep(os, i);
        CollectStops(os, i + 1);
        return Some(o.error);
      }
      SaveStep(files, os, i);
      i := i + 1;
    }
    assert os[..i] == os;
    error := None;
  }

  /**
   * `main` from the loaded builder on: work out how many documents, then run
   * the loop the mode names; a client that fails to start ends the run.
   */
  method RunPipeline(builder: PromptBuilder, out: OutputDir, client: ClientSetup, mode: string, count: int,
                     includeStyle: bool, includeContent: bool, rounds: seq<Round>) returns (error: Option<Error>)
    requires |rounds| >= |builder.profileLoader.allProfiles|
    requires |rounds| >= TotalDocs(count, |builder.profileLoader.allProfiles|)
    requires RoundsFit(SetupOf(builder, includeStyle, includeContent, client.Ready?), rounds)
    requires builder.profileLoader.allProfiles == [] || PicksFit(builder.profileLoader.allProfiles, rounds)
    modifies out
    ensures var run := Pipeline(SetupOf(builder, includeStyle, includeContent, client.Ready?), client, mode, count,
                                builder.profileLoader.allProfiles, rounds);
      && out.files == SaveAll(old(out.files), run.saved)
      && error == run.error
  {
    if client.InitFails? {
      return None;
    }
    var withClient := client.Ready?;
    var total := TotalDocs(count, builder.ProfileCount());
    if mode == "sequential" {
      error := RunSequential(builder, out, total, withClient, includeStyle, includeContent, rounds);
    } else if mode == "random" {
      error := RunRandom(builder, out, total, withClient, includeStyle, includeContent, rounds);
    } else {
      error := None;
    }
  }
}
