/** `convert_json`: the whole conversion of one input document, from finding
    its levels to the `{"levels": [...]}` output. The module-level `stats`
    dictionary is threaded through as a value, and the typed answers as a
    list of lines. */
module Convert {
  import opened Wrappers
  import opened Json
  import opened Similarity
  import opened Schema
  import opened Report
  import opened Prompts
  import opened Container
  import opened Mapping
  import opened Facts
  import opened Assembly

  /** The facts check of step 3: a sample level without its facts key, or
      with a falsy value there, aborts; otherwise the first fact is taken,
      and anything but a list whose first item is a dict makes Python raise
      (a dict has no key 0, a string has no `keys`, a number cannot be
      indexed). */
  function SampleFact(sample: Obj, factsKey: string): (r: Result<Obj, Failure>)
    ensures r == Err(Aborted(NoFacts)) <==> !Has(sample, factsKey) || !Truthy(Get(sample, factsKey))
    ensures r.Err? ==> r.error == Aborted(NoFacts) || r.error == Crash
    ensures r.Ok? ==> (Has(sample, factsKey) && Get(sample, factsKey).JArr?
      && |Get(sample, factsKey).items| > 0 && Get(sample, factsKey).items[0] == JObj(r.value))
  {
    if !Has(sample, factsKey) || !Truthy(Get(sample, factsKey)) then Err(Aborted(NoFacts))
    else
      match Get(sample, factsKey)
      case JArr(items) => if items[0].JObj? then Ok(items[0].fields) else Err(Crash)
      case _ => Err(Crash)
  }

  /** What steps 1 to 3 decide: the levels to process and the plan built
      from their first record and its first fact. */
  datatype Analysis = Analysis(levels: seq<Json>, plan: Plan, lines: Lines, stats: Stats)

  /** Steps 1 and 1.5: the levels to process and the sample level. */
  function FindLevels(doc: Json, lines: Lines): (r: Result<(seq<Json>, Obj, Lines), Failure>)
    ensures !doc.JObj? ==> r == Err(Crash)
    ensures r.Ok? ==> |r.value.0| > 0 && r.value.0[0] == JObj(r.value.1)
    ensures r.Err? && r.error.Aborted? ==> r.error.reason == NoContainer || r.error.reason == NoLevels
  {
    var (levels0, rest) :- ResolveContainer(doc, lines);
    var (levels, sample) :- SampleLevels(levels0);
    Ok((levels, sample, rest))
  }

  /** Step 2: the level mapping and optional level fields, decided on the
      sample level. */
  function LevelChoices(sample: Obj, includeAll: bool, sim: Scorer, lines: Lines, st: Stats)
    : (r: Result<(FieldMapping, seq<string>, Lines, Stats), Failure>)
    ensures r.Ok? ==> forall f :: f in EssentialLevelFields ==> f in r.value.0 && r.value.0[f].Some? && Has(sample, r.value.0[f].value)
    ensures r.Ok? ==> SameButChoices(r.value.3, st)
    ensures r.Err? && r.error.Aborted? ==> r.error.reason.FieldNotMapped? && r.error.reason.scope == LevelScope
  {
    var keys := Keys(sample);
    match MapFields(LevelScope, EssentialLevelFields, keys, sim, lines, map[], st)
    case Err(e) =>
      if e.Aborted? then MapFieldsAbort(LevelScope, EssentialLevelFields, keys, sim, lines, map[], st); Err(e)
      else Err(e)
    case Ok((lm, l1, st1)) =>
      MapFieldsMapping(LevelScope, EssentialLevelFields, keys, sim, lines, map[], st);
      MapFieldsStats(LevelScope, EssentialLevelFields, keys, sim, lines, map[], st);
      var (lopt, l2) :- OptionalFields(includeAll, keys, LevelScope, lm, l1);
      Ok((lm, lopt, l2, st1))
  }

  /** Step 3 after the facts check: the fact mapping and optional fact
      fields, decided on the sample fact. */
  function FactChoices(fact: Obj, includeAll: bool, sim: Scorer, lines: Lines, st: Stats)
    : (r: Result<(FieldMapping, seq<string>, Lines, Stats), Failure>)
    ensures r.Ok? ==> forall f :: f in RequiredFactFields ==> f in r.value.0 && r.value.0[f].Some? && Has(fact, r.value.0[f].value)
    ensures r.Ok? ==> SameButChoices(r.value.3, st)
    ensures r.Err? && r.error.Aborted? ==> r.error.reason.FieldNotMapped? && r.error.reason.scope == FactScope
  {
    var keys := Keys(fact);
    match MapFields(FactScope, EssentialFactFields, keys, sim, lines, map[], st)
    case Err(e) =>
      if e.Aborted? then MapFieldsAbort(FactScope, EssentialFactFields, keys, sim, lines, map[], st); Err(e)
      else Err(e)
    case Ok((fm, l1, st1)) =>
      MapFieldsMapping(FactScope, EssentialFactFields, keys, sim, lines, map[], st);
      MapFieldsStats(FactScope, EssentialFactFields, keys, sim, lines, map[], st);
      assert forall f :: f in RequiredFactFields ==> f in EssentialFactFields && !IsOperatorEntry(FactScope, f);
      var (fopt, l2) :- OptionalFields(includeAll, keys, FactScope, fm, l1);
      Ok((fm, fopt, l2, st1))
  }

  /** Steps 2 and 3 of `convert_json` on the sample level. Every prompt
      reads from the same lines, in this order. */
  function DecidePlan(sample: Obj, includeAll: bool, sim: Scorer, lines: Lines, st: Stats)
    : (r: Result<(Plan, Lines, Stats), Failure>)
    ensures r.Ok? ==> ValidPlan(r.value.0) && SameButChoices(r.value.2, st)
  {
    var (lm, lopt, l1, st1) :- LevelChoices(sample, includeAll, sim, lines, st);
    assert EssentialLevelFields[2] == "facts";
    var fact :- SampleFact(sample, lm["facts"].value);
    var (fm, fopt, l2, st2) :- FactChoices(fact, includeAll, sim, l1, st1);
    Ok((Plan(lm, lopt, fm, fopt), l2, st2))
  }

  /** Steps 1 to 3 of `convert_json`. */
  function Analyze(doc: Json, includeAll: bool, sim: Scorer, lines: Lines, st: Stats): (r: Result<Analysis, Failure>)
    ensures !doc.JObj? ==> r == Err(Crash)
    ensures r.Ok? ==> ValidPlan(r.value.plan) && |r.value.levels| > 0
    ensures r.Ok? ==> SameButChoices(r.value.stats, st)
  {
    var (levels, sample, l1) :- FindLevels(doc, lines);
    var (p, l2, st1) :- DecidePlan(sample, includeAll, sim, l1, st);
    Ok(Analysis(levels, p, l2, st1))
  }

  /** `convert_json`: the analysis, then step 4 over every level from
      position 1, wrapped as `{"levels": [...]}`. */
  function ConvertJson(v: Variant, doc: Json, includeAll: bool, sim: Scorer, lines: Lines, st: Stats): (r: Result<(Json, Stats), Failure>)
    ensures !doc.JObj? ==> r == Err(Crash)
  {
    var a :- Analyze(doc, includeAll, sim, lines, st);
    var (out, st') :- AssembleLevels(v, a.levels, 1, a.plan, a.stats);
    Ok((JObj([("levels", JArr(ObjArray(out)))]), st'))
  }

  /** A conversion succeeds exactly when the analysis does and every level
      can be got through. */
  lemma ConvertFails(v: Variant, doc: Json, includeAll: bool, sim: Scorer, lines: Lines, st: Stats)
    ensures ConvertJson(v, doc, includeAll, sim, lines, st).Ok?
      <==> Analyze(doc, includeAll, sim, lines, st).Ok?
           && AllLevelsOk(Analyze(doc, includeAll, sim, lines, st).value.levels, Analyze(doc, includeAll, sim, lines, st).value.plan)
  {
    var a := Analyze(doc, includeAll, sim, lines, st);
    if a.Ok? {
      AssembleLevelsFails(v, a.value.levels, 1, a.value.plan, a.value.stats);
    }
  }

  /** A successful conversion outputs `{"levels": [...]}` holding the
      reference record of every level, in order; it counts every level and
      splits every offered fact between processed and skipped; and beyond the
      field-mapping log of the analysis it appends exactly the facts'
      essential-field warnings. */
  lemma ConvertOutcome(v: Variant, doc: Json, includeAll: bool, sim: Scorer, lines: Lines, st: Stats)
    requires ConvertJson(v, doc, includeAll, sim, lines, st).Ok?
    ensures Analyze(doc, includeAll, sim, lines, st).Ok?
    ensures var a := Analyze(doc, includeAll, sim, lines, st).value;
      var (out, st') := ConvertJson(v, doc, includeAll, sim, lines, st).value;
      && out == JObj([("levels", JArr(ObjArray(LevelRecords(v, a.levels, a.plan))))])
      && st'.levelsProcessed == st.levelsProcessed + |a.levels|
      && st'.factsProcessed == st.factsProcessed + TotalFacts(v, a.levels, a.plan)
      && st'.factsSkipped + TotalFacts(v, a.levels, a.plan) == st.factsSkipped + TotalItems(a.levels, a.plan)
      && st'.fieldMappings == a.stats.fieldMappings
      && st'.warnings == st.warnings + TotalWarnings(v, a.levels, 1, a.plan)
  {
    var a := Analyze(doc, includeAll, sim, lines, st).value;
    AssembleLevelsRecords(v, a.levels, 1, a.plan, a.stats);
    AssembleLevelsCounts(v, a.levels, 1, a.plan, a.stats);
    AssembleLevelsWarnings(v, a.levels, 1, a.plan, a.stats);
  }

  /** A decline on the sample level aborts the conversion: when the fields
      before `EssentialLevelFields[i]` are present in the sample level, that
      one is missing, and its chooser declines, `convert_json` stops naming
      it. */
  lemma ConvertLevelDeclined(v: Variant, doc: Json, includeAll: bool, sim: Scorer, lines: Lines, st: Stats, i: nat)
    requires FindLevels(doc, lines).Ok?
    requires i < |EssentialLevelFields|
    requires forall j :: 0 <= j < i ==> EssentialLevelFields[j] in Keys(FindLevels(doc, lines).value.1)
    requires EssentialLevelFields[i] !in Keys(FindLevels(doc, lines).value.1)
    requires Declines(EssentialLevelFields[i], Keys(FindLevels(doc, lines).value.1), sim, FindLevels(doc, lines).value.2)
    ensures ConvertJson(v, doc, includeAll, sim, lines, st) == Err(Aborted(FieldNotMapped(LevelScope, EssentialLevelFields[i])))
  {
    var (levels, sample, l1) := FindLevels(doc, lines).value;
    MapFieldsDeclines(LevelScope, EssentialLevelFields, Keys(sample), sim, l1, map[], st, i);
    assert LevelChoices(sample, includeAll, sim, l1, st) == Err(Aborted(FieldNotMapped(LevelScope, EssentialLevelFields[i])));
  }

  /** The facts check read at the facts key the level mapping chose. */
  function MappedSampleFact(sample: Obj, lm: FieldMapping): Result<Obj, Failure> {
    if "facts" in lm && lm["facts"].Some? then SampleFact(sample, lm["facts"].value) else Err(Crash)
  }

  /** A decline on the sample fact aborts the conversion: once the level
      mapping is decided and the sample fact found, when the fields before
      `EssentialFactFields[i]` are present in that fact (or are `operator`),
      that one is missing and its chooser declines, `convert_json` stops
      naming it. */
  lemma ConvertFactDeclined(v: Variant, doc: Json, includeAll: bool, sim: Scorer, lines: Lines, st: Stats, i: nat)
    requires FindLevels(doc, lines).Ok?
    requires LevelChoices(FindLevels(doc, lines).value.1, includeAll, sim, FindLevels(doc, lines).value.2, st).Ok?
    requires var lc := LevelChoices(FindLevels(doc, lines).value.1, includeAll, sim, FindLevels(doc, lines).value.2, st).value;
      var fact := MappedSampleFact(FindLevels(doc, lines).value.1, lc.0);
      && fact.Ok?
      && i < |EssentialFactFields|
      && (forall j :: 0 <= j < i ==> EssentialFactFields[j] in Keys(fact.value) || IsOperatorEntry(FactScope, EssentialFactFields[j]))
      && EssentialFactFields[i] !in Keys(fact.value) && !IsOperatorEntry(FactScope, EssentialFactFields[i])
      && Declines(EssentialFactFields[i], Keys(fact.value), sim, lc.2)
    ensures ConvertJson(v, doc, includeAll, sim, lines, st) == Err(Aborted(FieldNotMapped(FactScope, EssentialFactFields[i])))
  {
    var (levels, sample, l1) := FindLevels(doc, lines).value;
    var (lm, lopt, l2, st1) := LevelChoices(sample, includeAll, sim, l1, st).value;
    assert EssentialLevelFields[2] == "facts";
    var fact := SampleFact(sample, lm["facts"].value).value;
    MapFieldsDeclines(FactScope, EssentialFactFields, Keys(fact), sim, l2, map[], st1, i);
    assert FactChoices(fact, includeAll, sim, l2, st1) == Err(Aborted(FieldNotMapped(FactScope, EssentialFactFields[i])));
    assert DecidePlan(sample, includeAll, sim, l1, st) == Err(Aborted(FieldNotMapped(FactScope, EssentialFactFields[i])));
  }

  /** The sample level has no facts to learn the fact mapping from: its
      mapped facts key is absent or holds a falsy value. */
  predicate NoSampleFacts(sample: Obj, lm: FieldMapping) {
    "facts" in lm && lm["facts"].Some? && (!Has(sample, lm["facts"].value) || !Truthy(Get(sample, lm["facts"].value)))
  }

  /** `convert_json` aborts for want of facts exactly when the levels are
      found, the level mapping is decided, and the sample level's mapped
      facts key is absent or falsy. */
  lemma ConvertNoFacts(v: Variant, doc: Json, includeAll: bool, sim: Scorer, lines: Lines, st: Stats)
    ensures ConvertJson(v, doc, includeAll, sim, lines, st) == Err(Aborted(NoFacts))
      <==> && FindLevels(doc, lines).Ok?
           && LevelChoices(FindLevels(doc, lines).value.1, includeAll, sim, FindLevels(doc, lines).value.2, st).Ok?
           && NoSampleFacts(FindLevels(doc, lines).value.1,
                            LevelChoices(FindLevels(doc, lines).value.1, includeAll, sim, FindLevels(doc, lines).value.2, st).value.0)
  {
    ConvertNoFactsPlan(v, doc, includeAll, sim, lines, st);
    var f := FindLevels(doc, lines);
    if f.Ok? {
      PlanNoFacts(f.value.1, includeAll, sim, f.value.2, st);
    }
  }

  /** Only the plan can abort for want of facts. */
  lemma ConvertNoFactsPlan(v: Variant, doc: Json, includeAll: bool, sim: Scorer, lines: Lines, st: Stats)
    ensures ConvertJson(v, doc, includeAll, sim, lines, st) == Err(Aborted(NoFacts))
      <==> FindLevels(doc, lines).Ok?
           && DecidePlan(FindLevels(doc, lines).value.1, includeAll, sim, FindLevels(doc, lines).value.2, st) == Err(Aborted(NoFacts))
  {
    var a := Analyze(doc, includeAll, sim, lines, st);
    if a.Ok? {
      var r := AssembleLevels(v, a.value.levels, 1, a.value.plan, a.value.stats);
      assert r.Err? ==> r.error == Crash;
    }
  }

  /** The plan aborts for want of facts exactly when the level mapping is
      decided and the sample level's mapped facts key is absent or falsy. */
  lemma PlanNoFacts(sample: Obj, includeAll: bool, sim: Scorer, lines: Lines, st: Stats)
    ensures DecidePlan(sample, includeAll, sim, lines, st) == Err(Aborted(NoFacts))
      <==> LevelChoices(sample, includeAll, sim, lines, st).Ok?
           && NoSampleFacts(sample, LevelChoices(sample, includeAll, sim, lines, st).value.0)
  {
    assert EssentialLevelFields[2] == "facts";
  }

  /** A well-formed output level: a dict whose `factCount` is the length of
      its `facts` list. */
  predicate CountedLevel(lv: Json) {
    lv.JObj? && Has(lv.fields, "facts") && Get(lv.fields, "facts").JArr?
    && Has(lv.fields, "factCount") && Get(lv.fields, "factCount") == JInt(|Get(lv.fields, "facts").items|)
  }

  lemma RecordsCounted(v: Variant, levels: seq<Json>, p: Plan)
    requires ValidPlan(p)
    requires AllLevelsOk(levels, p)
    ensures forall lv :: lv in ObjArray(LevelRecords(v, levels, p)) ==> CountedLevel(lv)
  {
    var recs := ObjArray(LevelRecords(v, levels, p));
    forall lv | lv in recs
      ensures CountedLevel(lv)
    {
      var i :| 0 <= i < |recs| && recs[i] == lv;
      assert LevelOk(levels[i], p);
      LevelRecordsAt(v, levels, p, i);
      LevelRecordShape(v, levels[i].fields, p);
    }
  }

  /** Every level of a successful conversion's output is a dict whose
      `factCount` is the length of its `facts` list. */
  lemma ConvertFactCounts(v: Variant, doc: Json, includeAll: bool, sim: Scorer, lines: Lines, st: Stats)
    requires ConvertJson(v, doc, includeAll, sim, lines, st).Ok?
    ensures var out := ConvertJson(v, doc, includeAll, sim, lines, st).value.0;
      && out.JObj? && Keys(out.fields) == ["levels"] && Get(out.fields, "levels").JArr?
      && forall lv :: lv in Get(out.fields, "levels").items ==> CountedLevel(lv)
  {
    var a := Analyze(doc, includeAll, sim, lines, st).value;
    ConvertOutcome(v, doc, includeAll, sim, lines, st);
    ConvertFails(v, doc, includeAll, sim, lines, st);
    RecordsCounted(v, a.levels, a.plan);
    var out := ConvertJson(v, doc, includeAll, sim, lines, st).value.0;
    assert Keys(out.fields) == ["levels"];
  }
}
