/**
 * ConfigSampler: draws style and content directives from a catalog of
 * sections and renders them as a Markdown block (utils/load_sampling.py).
 *
 * A catalog is the parsed YAML file: an ordered list of named sections, each
 * an ordered list of entries. The random numbers the sampler consumes are
 * inputs: one draw in [0, 1) per feature of an independent section and one
 * per mutually exclusive section.
 */
module Sampling {

  import opened Basics
  import opened Text

  /** The value of a section entry: a feature definition, or a scalar such as the exclusivity flag. */
  datatype Value = Feature(probability: real, description: string) | Scalar(truthy: bool)

  datatype Entry = Entry(key: string, value: Value)

  type Section = seq<Entry>

  datatype NamedSection = NamedSection(name: string, section: Section)

  type Catalog = seq<NamedSection>

  /** One selected feature: `{"key": ..., "description": ...}`. */
  datatype Selected = Selected(key: string, description: string)

  /** One entry of the dictionary the sampler returns: a section name and its selection. */
  datatype SampledSection = SampledSection(name: string, items: seq<Selected>)

  const ExclusiveFlag := "_mutually_exclusive"

  /** Keys starting with an underscore configure a section rather than name a feature. */
  predicate IsReserved(key: string) {
    |key| > 0 && key[0] == '_'
  }

  /** `section_data.get(key)`. */
  function Lookup(section: Section, key: string): (r: Option<Value>)
    ensures r.None? <==> forall e :: e in section ==> e.key != key
  {
    if section == [] then None
    else if section[0].key == key then Some(section[0].value)
    else Lookup(section[1..], key)
  }

  /** `section_data.get("_mutually_exclusive", False)`, read for its truth value. */
  function MutuallyExclusive(section: Section): (r: bool)
    ensures (forall e :: e in section ==> e.key != ExclusiveFlag) ==> !r
  {
    match Lookup(section, ExclusiveFlag)
    case None => false
    case Some(Scalar(t)) => t
    case Some(Feature(_, _)) => true   // a non-empty mapping is truthy
  }

  /** The selectable entries: those whose key is not reserved, in declaration order. */
  function Items(section: Section): (r: Section)
    ensures forall i :: 0 <= i < |r| ==> !IsReserved(r[i].key) && r[i] in section
    ensures forall e :: e in section && !IsReserved(e.key) ==> e in r
  {
    if section == [] then []
    else if IsReserved(section[0].key) then Items(section[1..])
    else [section[0]] + Items(section[1..])
  }

  /** Every selectable entry is a feature definition (otherwise Python raises a TypeError). */
  predicate WellFormed(items: Section) {
    forall i :: 0 <= i < |items| ==> items[i].value.Feature?
  }

  function Weights(items: Section): (w: seq<real>)
    requires WellFormed(items)
    ensures |w| == |items| && forall i :: 0 <= i < |w| ==> w[i] == items[i].value.probability
  {
    seq(|items|, i requires 0 <= i < |items| => items[i].value.probability)
  }

  function Sum(w: seq<real>): real {
    if w == [] then 0.0 else Sum(w[..|w| - 1]) + w[|w| - 1]
  }

  /** `itertools.accumulate(weights)`: the running totals. */
  function Cumulative(w: seq<real>): (c: seq<real>)
    ensures |c| == |w| && forall i :: 0 <= i < |w| ==> c[i] == Sum(w[..i + 1])
  {
    seq(|w|, i requires 0 <= i < |w| => Sum(w[..i + 1]))
  }

  /** `bisect.bisect_right(a, x, lo, hi)`, step for step. */
  function BisectRight(a: seq<real>, x: real, lo: nat, hi: nat): (r: nat)
    requires lo <= hi <= |a|
    decreases hi - lo
    ensures lo <= r <= hi
  {
    if lo < hi then
      var mid := (lo + hi) / 2;
      if x < a[mid] then BisectRight(a, x, lo, mid) else BisectRight(a, x, mid + 1, hi)
    else lo
  }

  /**
   * `random.choices(range(n), weights, k=1)[0]` with its one call of
   * `random()` given as `u`: fails on an empty population or a non-positive
   * total, otherwise bisects the running totals at `u * total`.
   */
  function WeightedChoice(w: seq<real>, u: real): (r: Result<nat>)
    ensures r.Err? <==> |w| == 0 || Sum(w) <= 0.0
    ensures r.Ok? ==> r.value < |w|
  {
    if |w| == 0 then Err(BadWeights)
    else
      var total := Sum(w);
      if total <= 0.0 then Err(BadWeights)
      else Ok(BisectRight(Cumulative(w), Scaled(u, total), 0, |w| - 1))
  }

  /** `random() * total`, the point at which the running totals are cut. */
  function Scaled(u: real, total: real): real {
    u * total
  }

  predicate NonNegative(w: seq<real>) {
    forall i :: 0 <= i < |w| ==> w[i] >= 0.0
  }

  lemma {:induction false} SumPrefixMonotone(w: seq<real>, i: nat, j: nat)
    requires NonNegative(w) && i <= j <= |w|
    ensures Sum(w[..i]) <= Sum(w[..j])
    decreases j - i
  {
    if i < j {
      SumPrefixMonotone(w, i, j - 1);
      assert w[..j][..j - 1] == w[..j - 1];
    }
  }

  /** `bisect_right` on sorted input finds the first position whose value exceeds `x`. */
  lemma {:induction false} BisectRightSplits(a: seq<real>, x: real, lo: nat, hi: nat)
    requires lo <= hi <= |a|
    requires forall i, j :: lo <= i <= j < hi ==> a[i] <= a[j]
    ensures lo <= BisectRight(a, x, lo, hi) <= hi
    ensures forall j :: lo <= j < BisectRight(a, x, lo, hi) ==> a[j] <= x
    ensures forall j :: BisectRight(a, x, lo, hi) <= j < hi ==> a[j] > x
    decreases hi - lo
  {
    if lo < hi {
      var mid := (lo + hi) / 2;
      if x < a[mid] {
        BisectRightSplits(a, x, lo, mid);
      } else {
        BisectRightSplits(a, x, mid + 1, hi);
      }
    }
  }

  lemma ScaledBelow(u: real, t: real)
    requires 0.0 <= u < 1.0 && t > 0.0
    ensures 0.0 <= Scaled(u, t) < t
  {
    assert (1.0 - u) * t > 0.0;
  }

  /** Running totals of non-negative weights never decrease. */
  lemma CumulativeSorted(w: seq<real>, hi: nat)
    requires NonNegative(w) && hi <= |w|
    ensures forall i, j :: 0 <= i <= j < hi ==> Cumulative(w)[i] <= Cumulative(w)[j]
  {
    forall i, j | 0 <= i <= j < hi ensures Cumulative(w)[i] <= Cumulative(w)[j] {
      SumPrefixMonotone(w, i + 1, j + 1);
    }
  }

  /** Where the running totals first pass a point at or above zero, the weight is positive. */
  lemma CutPointWeight(w: seq<real>, x: real, r: nat)
    requires r < |w| && 0.0 <= x && Cumulative(w)[r] > x
    requires r > 0 ==> Cumulative(w)[r - 1] <= x
    ensures w[r] > 0.0
  {
    assert w[..r + 1][..r] == w[..r];
    assert Cumulative(w)[r] == Sum(w[..r]) + w[r];
    if r > 0 {
      assert Cumulative(w)[r - 1] == Sum(w[..r]);
    } else {
      assert w[..0] == [];
    }
  }

  /** A feature of weight zero is never chosen: every pick has a positive weight. */
  lemma ChoiceHasPositiveWeight(w: seq<real>, u: real)
    requires NonNegative(w) && 0.0 <= u < 1.0
    requires WeightedChoice(w, u).Ok?
    ensures w[WeightedChoice(w, u).value] > 0.0
  {
    var n := |w|;
    var total := Sum(w);
    var c := Cumulative(w);
    var x := Scaled(u, total);
    ScaledBelow(u, total);
    CumulativeSorted(w, n - 1);
    BisectRightSplits(c, x, 0, n - 1);
    var r := BisectRight(c, x, 0, n - 1);
    assert WeightedChoice(w, u) == Ok(r);
    if r == n - 1 {
      assert w[..n] == w;
      assert c[n - 1] == total;
    }
    CutPointWeight(w, x, r);
  }

  /** On sorted totals, bisecting at a point between totals j-1 and j finds position j. */
  lemma BisectRightAtCut(c: seq<real>, x: real, j: nat)
    requires 0 < |c| && j < |c|
    requires forall i, k :: 0 <= i <= k < |c| - 1 ==> c[i] <= c[k]
    requires c[j] > x && (j > 0 ==> c[j - 1] <= x)
    ensures BisectRight(c, x, 0, |c| - 1) == j
  {
    BisectRightSplits(c, x, 0, |c| - 1);
  }

  /** A point in [0, total) scaled down by the total is a draw that scales back to it. */
  lemma ScaledQuotient(x: real, total: real)
    requires 0.0 <= x < total
    ensures 0.0 <= x / total < 1.0 && Scaled(x / total, total) == x
  {
  }

  /** The running total before a position of positive weight lies in [0, total). */
  lemma PrefixBelowTotal(w: seq<real>, j: nat)
    requires NonNegative(w) && j < |w| && w[j] > 0.0
    ensures 0.0 <= Sum(w[..j]) < Sum(w)
    ensures Cumulative(w)[j] == Sum(w[..j]) + w[j]
  {
    assert w[..j + 1][..j] == w[..j];
    assert w[..|w|] == w && w[..0] == [];
    SumPrefixMonotone(w, j + 1, |w|);
    SumPrefixMonotone(w, 0, j);
  }

  /** Every position of positive weight is what `random.choices` returns for some draw. */
  lemma EveryPositiveWeightReachable(w: seq<real>, j: nat)
    requires NonNegative(w) && j < |w| && w[j] > 0.0
    ensures exists u :: 0.0 <= u < 1.0 && WeightedChoice(w, u) == Ok(j)
  {
    var total := Sum(w);
    var x := Sum(w[..j]);
    PrefixBelowTotal(w, j);
    ScaledQuotient(x, total);
    var c := Cumulative(w);
    CumulativeSorted(w, |w| - 1);
    if j > 0 {
      assert c[j - 1] == x;
    }
    BisectRightAtCut(c, x, j);
    assert WeightedChoice(w, x / total) == Ok(j);
  }

  /**
   * Conversely, every candidate of an exclusive section with positive weight
   * and a description is the one selected for some draw.
   */
  lemma ExclusiveEveryFeatureReachable(section: Section, j: nat)
    requires MutuallyExclusive(section) && WellFormed(Items(section))
    requires NonNegative(Weights(Items(section))) && j < |Items(section)|
    requires Items(section)[j].value.probability > 0.0 && Items(section)[j].value.description != ""
    ensures exists u :: (IsDraw(u)
      && SectionSample(section, [u]) == Ok([Selected(Items(section)[j].key, Items(section)[j].value.description)]))
  {
    var items := Items(section);
    EveryPositiveWeightReachable(Weights(items), j);
    var u :| 0.0 <= u < 1.0 && WeightedChoice(Weights(items), u) == Ok(j);
    assert IsDraw(u) && SectionDrawsFit(section, [u]);
  }

  /** A feature is kept when its draw falls below its probability and it has a description. */
  predicate Included(e: Entry, draw: real)
    requires e.value.Feature?
  {
    draw < e.value.probability && e.value.description != ""
  }

  function ToSelected(e: Entry): Selected
    requires e.value.Feature?
  {
    Selected(e.key, e.value.description)
  }

  /** The selection of an independent section over its first |items| features; `draws[i]` is item i's draw. */
  function IndependentPick(items: Section, draws: seq<real>): seq<Selected>
    requires WellFormed(items) && |draws| >= |items|
  {
    if items == [] then []
    else
      var n := |items|;
      IndependentPick(items[..n - 1], draws)
        + (if Included(items[n - 1], draws[n - 1]) then [ToSelected(items[n - 1])] else [])
  }

  /** The positions of the kept features, in increasing order. */
  function PickedIndices(items: Section, draws: seq<real>): seq<nat>
    requires WellFormed(items) && |draws| >= |items|
  {
    if items == [] then []
    else
      var n := |items|;
      PickedIndices(items[..n - 1], draws) + (if Included(items[n - 1], draws[n - 1]) then [n - 1] else [])
  }

  /**
   * An independent section keeps a subsequence of its features in declaration
   * order: exactly those whose draw is below their probability and whose
   * description is non-empty.
   */
  lemma {:induction false} IndependentPickIsSubsequence(items: Section, draws: seq<real>)
    requires WellFormed(items) && |draws| >= |items|
    ensures var p := PickedIndices(items, draws);
      && |p| == |IndependentPick(items, draws)|
      && (forall k :: 0 <= k < |p| ==> p[k] < |items| && IndependentPick(items, draws)[k] == ToSelected(items[p[k]]))
      && (forall k, l :: 0 <= k < l < |p| ==> p[k] < p[l])
      && (forall j :: 0 <= j < |items| ==> (j in p <==> Included(items[j], draws[j])))
  {
    if items != [] {
      var n := |items|;
      var front := items[..n - 1];
      assert WellFormed(front);
      IndependentPickIsSubsequence(front, draws);
      forall j | 0 <= j < n - 1 ensures front[j] == items[j] { }
    }
  }

  /** How many draws sampling a section consumes. */
  function DrawsNeeded(section: Section): nat {
    if MutuallyExclusive(section) then 1 else |Items(section)|
  }

  predicate IsDraw(x: real) { 0.0 <= x < 1.0 }

  predicate SectionDrawsFit(section: Section, draws: seq<real>) {
    |draws| == DrawsNeeded(section) && forall i :: 0 <= i < |draws| ==> IsDraw(draws[i])
  }

  /** `_sample_section`: the selection made from one section with the given draws. */
  function SectionSample(section: Section, draws: seq<real>): Result<seq<Selected>>
    requires SectionDrawsFit(section, draws)
  {
    var items := Items(section);
    if !WellFormed(items) then Err(MalformedFeature)
    else if MutuallyExclusive(section) then
      match WeightedChoice(Weights(items), draws[0])
      case Err(e) => Err(e)
      case Ok(c) =>
        var d := items[c].value.description;
        if d != "" then Ok([Selected(items[c].key, d)]) else Ok([])
    else Ok(IndependentPick(items, draws))
  }

  /**
   * Sampling a section fails exactly when an entry is not a feature
   * definition, or the section is mutually exclusive and `random.choices`
   * rejects its weights.
   */
  lemma SectionSampleFails(section: Section, draws: seq<real>)
    requires SectionDrawsFit(section, draws)
    ensures SectionSample(section, draws).Err? <==> (!WellFormed(Items(section))
      || (MutuallyExclusive(section) && (|Items(section)| == 0 || Sum(Weights(Items(section))) <= 0.0)))
  {
  }

  /**
   * A mutually exclusive section yields at most one feature; that feature is
   * selectable, has a non-empty description, and (with non-negative weights)
   * a positive weight.
   */
  lemma ExclusiveSelectsAtMostOne(section: Section, draws: seq<real>)
    requires SectionDrawsFit(section, draws) && MutuallyExclusive(section)
    requires SectionSample(section, draws).Ok?
    requires NonNegative(Weights(Items(section)))
    ensures var sel := SectionSample(section, draws).value;
      && |sel| <= 1
      && (sel != [] ==>
            exists j :: 0 <= j < |Items(section)|
              && Items(section)[j] == Entry(sel[0].key, Feature(Items(section)[j].value.probability, sel[0].description))
              && !IsReserved(sel[0].key) && sel[0].description != "" && Items(section)[j].value.probability > 0.0)
  {
    var items := Items(section);
    var c := WeightedChoice(Weights(items), draws[0]).value;
    ChoiceHasPositiveWeight(Weights(items), draws[0]);
    assert items[c].value.Feature?;
  }

  /** A feature of probability 1 with a description is always kept; one of probability 0 never is. */
  lemma IndependentCertainties(section: Section, draws: seq<real>, j: nat)
    requires SectionDrawsFit(section, draws) && !MutuallyExclusive(section)
    requires WellFormed(Items(section)) && j < |Items(section)|
    ensures var e := Items(section)[j];
      && (e.value.probability == 1.0 && e.value.description != "" ==>
            Selected(e.key, e.value.description) in SectionSample(section, draws).value)
      && (e.value.probability == 0.0 ==> j !in PickedIndices(Items(section), draws))
  {
    var items := Items(section);
    IndependentPickIsSubsequence(items, draws);
    var p := PickedIndices(items, draws);
    if items[j].value.probability == 1.0 && items[j].value.description != "" {
      assert j in p;
      var k :| 0 <= k < |p| && p[k] == j;
      assert IndependentPick(items, draws)[k] == ToSelected(items[j]);
    }
  }

  /** The result of the independent branch of `_sample_section`. */
  function IndependentSample(items: Section, draws: seq<real>): Result<seq<Selected>>
    requires |draws| >= |items|
  {
    if WellFormed(items) then Ok(IndependentPick(items, draws)) else Err(MalformedFeature)
  }

  /** The loop of the independent branch: one trial per feature, appending each kept one. */
  method SampleIndependent(items: Section, draws: seq<real>) returns (r: Result<seq<Selected>>)
    requires |draws| >= |items|
    ensures r == IndependentSample(items, draws)
  {
    var selected: seq<Selected> := [];
    var i := 0;
    while i < |items|
      invariant 0 <= i <= |items|
      invariant WellFormed(items[..i])
      invariant selected == IndependentPick(items[..i], draws)
    {
      assert items[..i + 1][..i] == items[..i];
      match items[i].value
      case Scalar(_) =>
        assert !WellFormed(items);
        return Err(MalformedFeature);
      case Feature(probability, description) =>
        if draws[i] < probability && description != "" {
          selected := selected + [Selected(items[i].key, description)];
        }
      i := i + 1;
    }
    assert items[..i] == items;
    r := Ok(selected);
  }

  /** `_sample_section`: the exclusive branch makes one weighted choice, the other branch loops. */
  method SampleSection(section: Section, draws: seq<real>) returns (r: Result<seq<Selected>>)
    requires SectionDrawsFit(section, draws)
    ensures r == SectionSample(section, draws)
  {
    var exclusive := MutuallyExclusive(section);
    var items := Items(section);
    if !exclusive {
      r := SampleIndependent(items, draws);
      return;
    }
    if !WellFormed(items) {
      return Err(MalformedFeature);
    }
    var chosen := WeightedChoice(Weights(items), draws[0]);
    if chosen.Err? {
      return Err(chosen.error);
    }
    var selected: seq<Selected> := [];
    var description := items[chosen.value].value.description;
    if description != "" {
      selected := selected + [Selected(items[chosen.value].key, description)];
      assert selected == [Selected(items[chosen.value].key, description)];
    }
    r := Ok(selected);
  }

  predicate CatalogDrawsFit(catalog: Catalog, draws: seq<seq<real>>) {
    |draws| == |catalog| && forall i :: 0 <= i < |catalog| ==> SectionDrawsFit(catalog[i].section, draws[i])
  }

  /** `sample_style_config` / `sample_content_config` over the first |catalog| sections. */
  function CatalogSample(catalog: Catalog, draws: seq<seq<real>>): Result<seq<SampledSection>>
    requires |draws| >= |catalog|
    requires forall i :: 0 <= i < |catalog| ==> SectionDrawsFit(catalog[i].section, draws[i])
  {
    if catalog == [] then Ok([])
    else
      var n := |catalog|;
      match CatalogSample(catalog[..n - 1], draws)
      case Err(e) => Err(e)
      case Ok(front) =>
        match SectionSample(catalog[n - 1].section, draws[n - 1])
        case Err(e) => Err(e)
        case Ok(sel) => Ok(front + [SampledSection(catalog[n - 1].name, sel)])
  }

  /** Sampling a catalog fails exactly when sampling one of its sections fails. */
  lemma {:induction false} CatalogSampleFails(catalog: Catalog, draws: seq<seq<real>>)
    requires |draws| >= |catalog|
    requires forall i :: 0 <= i < |catalog| ==> SectionDrawsFit(catalog[i].section, draws[i])
    ensures CatalogSample(catalog, draws).Err? <==>
      exists i :: 0 <= i < |catalog| && SectionSample(catalog[i].section, draws[i]).Err?
  {
    if catalog != [] {
      var n := |catalog|;
      var front := catalog[..n - 1];
      CatalogSampleFails(front, draws);
      if CatalogSample(front, draws).Err? {
        var i :| 0 <= i < n - 1 && SectionSample(front[i].section, draws[i]).Err?;
        assert front[i] == catalog[i];
      } else if SectionSample(catalog[n - 1].section, draws[n - 1]).Ok? {
        forall i | 0 <= i < n ensures SectionSample(catalog[i].section, draws[i]).Ok? {
          if i < n - 1 {
            assert front[i] == catalog[i];
          }
        }
      }
    }
  }

  /**
   * A successful sample has one entry per section, in catalog order, empty
   * selections included.
   */
  lemma {:induction false} CatalogSampleShape(catalog: Catalog, draws: seq<seq<real>>)
    requires |draws| >= |catalog|
    requires forall i :: 0 <= i < |catalog| ==> SectionDrawsFit(catalog[i].section, draws[i])
    requires CatalogSample(catalog, draws).Ok?
    ensures |CatalogSample(catalog, draws).value| == |catalog|
    ensures forall i :: 0 <= i < |catalog| ==>
      && SectionSample(catalog[i].section, draws[i]).Ok?
      && CatalogSample(catalog, draws).value[i] == SampledSection(catalog[i].name, SectionSample(catalog[i].section, draws[i]).value)
  {
    if catalog != [] {
      var n := |catalog|;
      var front := catalog[..n - 1];
      CatalogSampleShape(front, draws);
      var r := CatalogSample(catalog, draws).value;
      var rf := CatalogSample(front, draws).value;
      assert r == rf + [SampledSection(catalog[n - 1].name, SectionSample(catalog[n - 1].section, draws[n - 1]).value)];
      forall i | 0 <= i < n
        ensures SectionSample(catalog[i].section, draws[i]).Ok? &&
          r[i] == SampledSection(catalog[i].name, SectionSample(catalog[i].section, draws[i]).value)
      {
        if i < n - 1 {
          assert front[i] == catalog[i];
          assert r[i] == rf[i];
        }
      }
    }
  }

  /** Sampling stops at the first failing section: its error is the catalog's error. */
  lemma {:induction false} CatalogSampleStops(catalog: Catalog, draws: seq<seq<real>>, k: nat)
    requires |draws| >= |catalog| && k <= |catalog|
    requires forall i :: 0 <= i < |catalog| ==> SectionDrawsFit(catalog[i].section, draws[i])
    requires CatalogSample(catalog[..k], draws).Err?
    ensures CatalogSample(catalog, draws) == CatalogSample(catalog[..k], draws)
    decreases |catalog| - k
  {
    if k < |catalog| {
      var n := |catalog|;
      var front := catalog[..n - 1];
      assert front[..k] == catalog[..k];
      forall i | 0 <= i < |front| ensures SectionDrawsFit(front[i].section, draws[i]) {
        assert front[i] == catalog[i];
      }
      CatalogSampleStops(front, draws, k);
      assert CatalogSample(catalog, draws) == CatalogSample(front, draws);
    } else {
      assert catalog[..k] == catalog;
    }
  }

  /** `sample_style_config`, filling the result section by section. */
  method SampleCatalog(catalog: Catalog, draws: seq<seq<real>>) returns (r: Result<seq<SampledSection>>)
    requires CatalogDrawsFit(catalog, draws)
    ensures r == CatalogSample(catalog, draws)
  {
    var result: seq<SampledSection> := [];
    var i := 0;
    while i < |catalog|
      invariant 0 <= i <= |catalog|
      invariant CatalogSample(catalog[..i], draws) == Ok(result)
    {
      assert catalog[..i + 1][..i] == catalog[..i];
      var sel := SampleSection(catalog[i].section, draws[i]);
      if sel.Err? {
        CatalogSampleStops(catalog, draws, i + 1);
        return Err(sel.error);
      }
      result := result + [SampledSection(catalog[i].name, sel.value)];
      i := i + 1;
    }
    assert catalog[..i] == catalog;
    r := Ok(result);
  }

  const StyleHeading := "## FOLLOW THESE STYLE REQUIREMENTS"
  const ContentHeading := "## FOLLOW THESE CONTENT REQUIREMENTS"

  /**
   * `section_name.replace("_", " ").title()`: each underscore becomes a
   * space, and each character is upper-cased at the start of a word and
   * lower-cased after a letter.
   */
  function SectionTitle(name: string): (r: string)
    ensures '_' !in r && |r| == |name|
    ensures forall i :: 0 <= i < |name| ==>
      r[i] == (var c := if name[i] == '_' then ' ' else name[i];
               if i > 0 && IsCased(name[i - 1]) then Lower(c) else Upper(c))
  {
    var spaced := ReplaceChar(name, '_', ' ');
    TitleAt(spaced);
    TitleAddsNoUnderscore(spaced);
    Title(spaced)
  }

  lemma TitleAddsNoUnderscore(s: string)
    requires '_' !in s
    ensures '_' !in Title(s)
  {
    TitleAt(s);
    forall i | 0 <= i < |s| ensures Title(s)[i] != '_' {
      assert s[i] in s;
      assert !IsCased('_');
      if i > 0 && IsCased(s[i - 1]) {
        assert Title(s)[i] == Lower(s[i]);
        assert Lower(s[i]) != '_';
      } else {
        assert Title(s)[i] == Upper(s[i]);
        assert Upper(s[i]) != '_';
      }
    }
  }

  function TitleLine(name: string): string {
    "**" + SectionTitle(name) + ":**"
  }

  function BulletLine(description: string): string {
    "- " + description
  }

  function Bullets(items: seq<Selected>): (r: seq<string>)
    ensures |r| == |items| && forall k :: 0 <= k < |items| ==> r[k] == BulletLine(items[k].description)
  {
    seq(|items|, k requires 0 <= k < |items| => BulletLine(items[k].description))
  }

  /** The lines one section contributes: none when nothing was selected. */
  function SectionLines(s: SampledSection): seq<string> {
    if s.items == [] then [] else [TitleLine(s.name)] + Bullets(s.items) + [""]
  }

  /** The lines after the heading and its blank line, for the first |sampled| sections. */
  function BlockLines(sampled: seq<SampledSection>): seq<string> {
    if sampled == [] then [] else BlockLines(sampled[..|sampled| - 1]) + SectionLines(sampled[|sampled| - 1])
  }

  /** `format_style_prompt` / `format_content_prompt` with the heading as a parameter. */
  function FormatBlock(heading: string, sampled: seq<SampledSection>): string {
    Strip(Join([heading, ""] + BlockLines(sampled), "\n"))
  }

  function StyleBlock(sampled: seq<SampledSection>): string { FormatBlock(StyleHeading, sampled) }
  function ContentBlock(sampled: seq<SampledSection>): string { FormatBlock(ContentHeading, sampled) }

  /** The inner loop of the formatter: one bullet line appended per selected feature. */
  method AppendBullets(lines: seq<string>, items: seq<Selected>) returns (r: seq<string>)
    ensures r == lines + Bullets(items)
  {
    r := lines;
    var k := 0;
    while k < |items|
      invariant 0 <= k <= |items|
      invariant r == lines + Bullets(items[..k])
    {
      assert Bullets(items[..k + 1]) == Bullets(items[..k]) + [BulletLine(items[k].description)];
      r := r + [BulletLine(items[k].description)];
      k := k + 1;
    }
    assert items[..k] == items;
  }

  /** The loop body of the formatter: a section that selected something adds its title, its bullets and a blank line. */
  method AppendSection(lines: seq<string>, section: SampledSection) returns (r: seq<string>)
    ensures r == lines + SectionLines(section)
  {
    r := lines;
    var items := section.items;
    if items != [] {
      r := r + [TitleLine(section.name)];
      r := AppendBullets(r, items);
      r := r + [""];
    }
  }

  /** One more section extends the lines by that section's lines. */
  lemma BlockLinesSnoc(heading: string, sampled: seq<SampledSection>, i: nat)
    requires i < |sampled|
    ensures [heading, ""] + BlockLines(sampled[..i + 1]) == ([heading, ""] + BlockLines(sampled[..i])) + SectionLines(sampled[i])
  {
    assert sampled[..i + 1][..i] == sampled[..i];
  }

  /** The line-building loop of the formatter: the heading, a blank line, then each section's lines. */
  method BuildLines(heading: string, sampled: seq<SampledSection>) returns (lines: seq<string>)
    ensures lines == [heading, ""] + BlockLines(sampled)
  {
    lines := [heading];
    lines := lines + [""];
    var i := 0;
    while i < |sampled|
      invariant 0 <= i <= |sampled|
      invariant lines == [heading, ""] + BlockLines(sampled[..i])
    {
      BlockLinesSnoc(heading, sampled, i);
      lines := AppendSection(lines, sampled[i]);
      i := i + 1;
    }
    assert sampled[..i] == sampled;
  }

  /** `format_style_prompt` / `format_content_prompt`: the lines joined by newlines and stripped. */
  method FormatSampled(heading: string, sampled: seq<SampledSection>) returns (text: string)
    ensures text == FormatBlock(heading, sampled)
  {
    var lines := BuildLines(heading, sampled);
    text := Strip(Join(lines, "\n"));
  }

  /** What follows the heading in a rendered block: the section lines, without trailing whitespace. */
  function BlockBody(sampled: seq<SampledSection>): string {
    TrimEnd("\n" + Join([""] + BlockLines(sampled), "\n"))
  }

  /** A heading that starts and ends with a visible character. */
  predicate GoodHeading(h: string) {
    h != [] && !IsSpace(h[0]) && !IsSpace(h[|h| - 1])
  }

  /** The block is its heading followed by the remaining lines, with only the trailing whitespace removed. */
  lemma FormatBlockStartsWithHeading(heading: string, sampled: seq<SampledSection>)
    requires GoodHeading(heading)
    ensures FormatBlock(heading, sampled) == heading + BlockBody(sampled)
  {
    var tail := [""] + BlockLines(sampled);
    assert [heading, ""] + BlockLines(sampled) == [heading] + tail;
    JoinCons(heading, tail, "\n");
    StripAfter(heading, "\n" + Join(tail, "\n"));
  }

  /** With nothing selected anywhere the block is the heading line alone. */
  lemma EmptySelectionIsHeading(heading: string, sampled: seq<SampledSection>)
    requires GoodHeading(heading)
    requires forall i :: 0 <= i < |sampled| ==> sampled[i].items == []
    ensures FormatBlock(heading, sampled) == heading
  {
    NoLinesWhenNothingSelected(sampled);
    FormatBlockStartsWithHeading(heading, sampled);
    assert TrimEnd("\n") == "";
  }

  lemma {:induction false} NoLinesWhenNothingSelected(sampled: seq<SampledSection>)
    requires forall i :: 0 <= i < |sampled| ==> sampled[i].items == []
    ensures BlockLines(sampled) == []
  {
    if sampled != [] {
      NoLinesWhenNothingSelected(sampled[..|sampled| - 1]);
    }
  }

  /** The style and content formatters are one routine that differs only in the heading. */
  lemma StyleAndContentShareTheirBody(sampled: seq<SampledSection>)
    ensures StyleBlock(sampled) == StyleHeading + BlockBody(sampled)
    ensures ContentBlock(sampled) == ContentHeading + BlockBody(sampled)
  {
    assert GoodHeading(StyleHeading) && GoodHeading(ContentHeading);
    FormatBlockStartsWithHeading(StyleHeading, sampled);
    FormatBlockStartsWithHeading(ContentHeading, sampled);
  }

  predicate IsBulletLine(line: string) { |line| >= 2 && line[..2] == "- " }
  predicate IsTitleLine(line: string) { |line| >= 2 && line[..2] == "**" }

  function BulletsOf(lines: seq<string>): seq<string> {
    if lines == [] then []
    else BulletsOf(lines[..|lines| - 1]) + (if IsBulletLine(lines[|lines| - 1]) then [lines[|lines| - 1]] else [])
  }

  function TitlesOf(lines: seq<string>): seq<string> {
    if lines == [] then []
    else TitlesOf(lines[..|lines| - 1]) + (if IsTitleLine(lines[|lines| - 1]) then [lines[|lines| - 1]] else [])
  }

  function Descriptions(items: seq<Selected>): (r: seq<string>)
    ensures |r| == |items| && forall k :: 0 <= k < |items| ==> r[k] == items[k].description
  {
    seq(|items|, k requires 0 <= k < |items| => items[k].description)
  }

  /** Every selected description in order, section after section. */
  function AllDescriptions(sampled: seq<SampledSection>): seq<string> {
    if sampled == [] then []
    else AllDescriptions(sampled[..|sampled| - 1]) + Descriptions(sampled[|sampled| - 1].items)
  }

  /** The names of the sections that selected something, in order. */
  function NonEmptyNames(sampled: seq<SampledSection>): seq<string> {
    if sampled == [] then []
    else NonEmptyNames(sampled[..|sampled| - 1]) + (if sampled[|sampled| - 1].items == [] then [] else [sampled[|sampled| - 1].name])
  }

  /** One bullet line per description. */
  function BulletLines(ds: seq<string>): (r: seq<string>)
    ensures |r| == |ds| && forall k :: 0 <= k < |ds| ==> r[k] == BulletLine(ds[k])
  {
    seq(|ds|, k requires 0 <= k < |ds| => BulletLine(ds[k]))
  }

  /** One title line per section name. */
  function TitleLines(names: seq<string>): (r: seq<string>)
    ensures |r| == |names| && forall k :: 0 <= k < |names| ==> r[k] == TitleLine(names[k])
  {
    seq(|names|, k requires 0 <= k < |names| => TitleLine(names[k]))
  }

  lemma {:induction false} BulletsOfAppend(a: seq<string>, b: seq<string>)
    ensures BulletsOf(a + b) == BulletsOf(a) + BulletsOf(b)
    ensures TitlesOf(a + b) == TitlesOf(a) + TitlesOf(b)
    decreases |b|
  {
    if b != [] {
      assert (a + b)[..|a + b| - 1] == a + b[..|b| - 1];
      BulletsOfAppend(a, b[..|b| - 1]);
    } else {
      assert a + b == a;
    }
  }

  lemma {:induction false} BulletsOnly(b: seq<string>)
    requires forall k :: 0 <= k < |b| ==> IsBulletLine(b[k]) && !IsTitleLine(b[k])
    ensures BulletsOf(b) == b && TitlesOf(b) == []
  {
    if b != [] {
      BulletsOnly(b[..|b| - 1]);
    }
  }

  /** Bullet lines read back as themselves, and hold no title. */
  lemma BulletsReadBack(items: seq<Selected>)
    ensures BulletsOf(Bullets(items)) == Bullets(items) && TitlesOf(Bullets(items)) == []
  {
    var b := Bullets(items);
    forall k | 0 <= k < |b| ensures IsBulletLine(b[k]) && !IsTitleLine(b[k]) {
      assert b[k][..2] == "- ";
    }
    BulletsOnly(b);
  }

  /** A title line alone reads back as one title and no bullet. */
  lemma TitleReadBack(name: string)
    ensures BulletsOf([TitleLine(name)]) == [] && TitlesOf([TitleLine(name)]) == [TitleLine(name)]
  {
    var one: seq<string> := [TitleLine(name)];
    assert one[..0] == [];
    assert one[0][..2] == "**";
  }

  /** The lines of one section read back as its bullets and its title. */
  lemma SectionLinesSplit(s: SampledSection)
    ensures BulletsOf(SectionLines(s)) == BulletLines(Descriptions(s.items))
    ensures TitlesOf(SectionLines(s)) == if s.items == [] then [] else [TitleLine(s.name)]
  {
    if s.items != [] {
      var t := TitleLine(s.name);
      var b := Bullets(s.items);
      assert b == BulletLines(Descriptions(s.items));
      BulletsReadBack(s.items);
      TitleReadBack(s.name);
      BulletsOfAppend([t], b);
      BulletsOfAppend([t] + b, [""]);
      assert BulletsOf([t] + b) == b && TitlesOf([t] + b) == [t];
      assert SectionLines(s) == ([t] + b) + [""];
    }
  }

  lemma BulletLinesAppend(a: seq<string>, b: seq<string>)
    ensures BulletLines(a + b) == BulletLines(a) + BulletLines(b)
    ensures TitleLines(a + b) == TitleLines(a) + TitleLines(b)
  {
  }

  /**
   * Reading the rendered lines back: the bullet lines are exactly one
   * `- description` per selected feature in selection order, and the title
   * lines are exactly one per section that selected something.
   */
  lemma {:induction false} BlockLinesReadBack(sampled: seq<SampledSection>)
    ensures BulletsOf(BlockLines(sampled)) == BulletLines(AllDescriptions(sampled))
    ensures TitlesOf(BlockLines(sampled)) == TitleLines(NonEmptyNames(sampled))
  {
    if sampled != [] {
      var front := sampled[..|sampled| - 1];
      var last := sampled[|sampled| - 1];
      BlockLinesReadBack(front);
      SectionLinesSplit(last);
      BulletsOfAppend(BlockLines(front), SectionLines(last));
      BulletLinesAppend(AllDescriptions(front), Descriptions(last.items));
      BulletLinesAppend(NonEmptyNames(front), if last.items == [] then [] else [last.name]);
      assert TitleLines([last.name]) == [TitleLine(last.name)];
    }
  }

  /** ConfigSampler: the two catalogs it loads when it is created. */
  datatype ConfigSampler = ConfigSampler(styleData: Catalog, contentData: Catalog)

  /**
   * `generate_prompts`: samples both catalogs on every call and formats each
   * under its own heading.
   */
  function GeneratePrompts(sampler: ConfigSampler, styleDraws: seq<seq<real>>, contentDraws: seq<seq<real>>)
    : (r: Result<(string, string)>)
    requires CatalogDrawsFit(sampler.styleData, styleDraws) && CatalogDrawsFit(sampler.contentData, contentDraws)
    ensures r.Err? <==> CatalogSample(sampler.styleData, styleDraws).Err? || CatalogSample(sampler.contentData, contentDraws).Err?
    ensures r.Ok? ==> exists body1, body2 :: r.value == (StyleHeading + body1, ContentHeading + body2)
  {
    match CatalogSample(sampler.styleData, styleDraws)
    case Err(e) => Err(e)
    case Ok(style) =>
      match CatalogSample(sampler.contentData, contentDraws)
      case Err(e) => Err(e)
      case Ok(content) =>
        StyleAndContentShareTheirBody(style);
        StyleAndContentShareTheirBody(content);
        Ok((StyleBlock(style), ContentBlock(content)))
  }
}
