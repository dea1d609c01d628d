/** The documented conversions, worked through the model: a document whose
    records already use the target field names converts without a single
    prompt, and a fact missing its result is dropped with one warning. */
module Scenarios {
  import opened Wrappers
  import opened Json
  import opened Similarity
  import opened Schema
  import opened Report
  import opened Prompts
  import opened Facts
  import opened Container
  import opened Mapping
  import opened Assembly
  import opened Convert

  /** `{"index": 0, "operands": [2, 3], "operator": "+", "result": 5, "expression": "2+3"}` */
  const AddFact: Obj := [
    ("index", JInt(0)), ("operands", JArr([JInt(2), JInt(3)])), ("operator", JStr("+")),
    ("result", JInt(5)), ("expression", JStr("2+3"))]

  /** `{"id": "L1", "title": "Adding", "facts": [AddFact]}` */
  const AddLevel: Obj := [("id", JStr("L1")), ("title", JStr("Adding")), ("facts", JArr([JObj(AddFact)]))]

  const AddDoc: Json := JObj([("levels", JArr([JObj(AddLevel)]))])

  /** The expected output: the level with `factCount` before `facts`, and the
      fact unchanged. */
  const AddOutput: Json := JObj([("levels", JArr([JObj([
    ("id", JStr("L1")), ("title", JStr("Adding")), ("factCount", JInt(1)), ("facts", JArr([JObj(AddFact)]))])]))])

  /** The mappings a sample with every target name present produces. */
  const LevelIdentity: FieldMapping := map["id" := Some("id"), "title" := Some("title"), "facts" := Some("facts")]
  const FactIdentity: FieldMapping := map[
    "index" := Some("index"), "operands" := Some("operands"), "operator" := Some("operator"),
    "result" := Some("result"), "expression" := Some("expression")]

  lemma AddFindLevels()
    ensures FindLevels(AddDoc, []) == Ok(([JObj(AddLevel)], AddLevel, []))
  {
    KeysAt(AddLevel);
    assert Keys(AddLevel) == ["id", "title", "facts"];
    assert Has(AddDoc.fields, "levels");
  }

  /** No field of a record outside the target names is offered as optional. */
  lemma NothingOptional(keys: seq<string>, scope: Scope, m: FieldMapping)
    requires forall k :: k in keys ==> k in EssentialLevelFields + EssentialFactFields
    ensures OptionalFields(false, keys, scope, m, []) == Ok(([], []))
  {
    EmptyWithoutMembers(OptionalCandidates(keys, scope));
  }

  lemma EmptyWithoutMembers<T>(c: seq<T>)
    ensures (forall x :: x !in c) ==> c == []
  {
    if c != [] {
      assert c[0] in c;
    }
  }

  /** `m` with every field of `fields` mapped to itself. */
  function SelfMapped(m: FieldMapping, fields: seq<string>): (r: FieldMapping)
    ensures forall f :: f in fields ==> f in r && r[f] == Some(f)
    ensures forall f :: f in m && f !in fields ==> f in r && r[f] == m[f]
    ensures forall f :: f in r ==> f in m || f in fields
    decreases |fields|
  {
    if fields == [] then m
    else
      assert forall f :: f in fields ==> f == fields[0] || f in fields[1..];
      SelfMapped(m[fields[0] := Some(fields[0])], fields[1..])
  }

  /** When the sample already has every field, each field maps to itself
      and nothing is asked or logged. */
  lemma {:induction false} PresentMapsToItself(scope: Scope, fields: seq<string>, keys: seq<string>, sim: Scorer,
                                               lines: Lines, m: FieldMapping, st: Stats)
    requires forall f :: f in fields ==> f in keys
    ensures MapFields(scope, fields, keys, sim, lines, m, st) == Ok((SelfMapped(m, fields), lines, st))
    decreases |fields|
  {
    if fields != [] {
      var f := fields[0];
      assert f in keys;
      assert forall g :: g in fields[1..] ==> g in fields;
      PresentMapsToItself(scope, fields[1..], keys, sim, lines, m[f := Some(f)], st);
    }
  }

  lemma AddLevelChoices(sim: Scorer, st: Stats)
    ensures LevelChoices(AddLevel, false, sim, [], st) == Ok((LevelIdentity, [], [], st))
  {
    KeysAt(AddLevel);
    var keys := Keys(AddLevel);
    assert keys == EssentialLevelFields;
    PresentMapsToItself(LevelScope, keys, keys, sim, [], map[], st);
    assert SelfMapped(map[], keys) == LevelIdentity;
    NothingOptional(keys, LevelScope, LevelIdentity);
  }

  lemma AddFactChoices(sim: Scorer, st: Stats)
    ensures FactChoices(AddFact, false, sim, [], st) == Ok((FactIdentity, [], [], st))
  {
    AddFactKeys();
    var keys := Keys(AddFact);
    PresentMapsToItself(FactScope, keys, keys, sim, [], map[], st);
    assert SelfMapped(map[], keys) == FactIdentity;
    NothingOptional(keys, FactScope, FactIdentity);
  }

  lemma AddFactKeys()
    ensures Keys(AddFact) == EssentialFactFields
    ensures forall f :: f in RequiredFactFields ==> Supplies(AddFact, MappedKey(FactIdentity, f))
    ensures Supplies(AddFact, MappedKey(FactIdentity, "operator")) && "operator" in FactIdentity
  {
    KeysAt(AddFact);
    var keys := Keys(AddFact);
    assert keys == ["index", "operands", "operator", "result", "expression"];
    assert keys[0] == "index" && keys[1] == "operands" && keys[2] == "operator";
    assert keys[3] == "result" && keys[4] == "expression";
  }

  /** A fact mapping that sends every essential fact field to itself. */
  predicate IdentityOn(fm: FieldMapping) {
    forall f :: f in EssentialFactFields ==> f in fm && fm[f] == Some(f)
  }

  lemma FactIdentityIsIdentity()
    ensures IdentityOn(FactIdentity)
  {
  }

  /** A fact already in the target shape is accepted under such a mapping. */
  lemma NormalisedSupplied(fact: Obj, fm: FieldMapping)
    requires Keys(fact) == EssentialFactFields && IdentityOn(fm)
    ensures AllSupplied(EssentialFactFields, fact, fm)
    ensures forall f :: f in RequiredFactFields ==> Supplies(fact, MappedKey(fm, f)) && MappedKey(fm, f) == Some(f)
    ensures Supplies(fact, MappedKey(fm, "operator")) && "operator" in fm && fm["operator"] == Some("operator")
  {
    RequiredAreEssential();
  }

  /** Such a fact comes out of the essential loop unchanged, wherever
      `type` is read from. */
  lemma NormalisedEssentials(holder: Obj, fact: Obj, fm: FieldMapping, ctx: LevelLabel, st: Stats)
    requires Keys(fact) == EssentialFactFields && IdentityOn(fm)
    ensures MapEssentials(Some(holder), EssentialFactFields, fact, fm, [], ctx, st).0 == Some(fact)
  {
    NormalisedSupplied(fact, fm);
    EssentialsRecord(Some(holder), EssentialFactFields, fact, fm, [], ctx, st);
    var e := MapEssentials(Some(holder), EssentialFactFields, fact, fm, [], ctx, st).0.value;
    EssentialKeysOf(holder, fact, fm, ctx, st);
    EssentialValuesOf(holder, fact, fm, ctx, st);
    forall k | Has(e, k) ensures Get(e, k) == Get(fact, k) {
      RequiredAreEssential();
      if k != "operator" {
        assert k in RequiredFactFields;
      }
    }
    SameEntries(e, fact);
  }

  /** Such a fact also logs nothing. */
  lemma NormalisedNoWarnings(holder: Obj, fact: Obj, fm: FieldMapping, ctx: LevelLabel)
    requires Keys(fact) == EssentialFactFields && IdentityOn(fm)
    ensures EssentialWarnings(EssentialFactFields, fact, fm, holder, ctx) == []
  {
    NormalisedSupplied(fact, fm);
  }

  /** An already-normalised fact passes through `map_fact` unchanged and is
      counted as processed, with no warning. */
  lemma NormalisedFactKept(v: Variant, fact: Obj, fm: FieldMapping, ctx: LevelLabel, st: Stats)
    requires Keys(fact) == EssentialFactFields && IdentityOn(fm)
    ensures FactStep(v, fact, fm, [], ctx, st) == (Some(fact), st.(factsProcessed := st.factsProcessed + 1))
  {
    NormalisedRecord(v, fact, fm);
    NormalisedNoWarnings(TypeHolder(v, fact), fact, fm, ctx);
    var r := FactStep(v, fact, fm, [], ctx, st);
    assert r.1.warnings == st.warnings + [] == st.warnings;
    assert r.1 == st.(factsProcessed := st.factsProcessed + 1);
  }

  lemma NormalisedRecord(v: Variant, fact: Obj, fm: FieldMapping)
    requires Keys(fact) == EssentialFactFields && IdentityOn(fm)
    ensures FactRecord(v, fact, fm, []) == Some(fact)
  {
    NormalisedEssentials(TypeHolder(v, fact), fact, fm, Numbered(0), InitialStats);
    assert CopyOptional([], fact, fm, fact) == fact;
  }

  /** The sample's field names without `result`. */
  const NoResultFields: seq<string> := ["index", "operands", "operator", "expression"]

  /** Under such a mapping, a fact with every target field but `result` has
      its first gap at `result`, after the operator. */
  lemma NoResultGap(fact: Obj, fm: FieldMapping)
    requires Keys(fact) == NoResultFields && IdentityOn(fm)
    ensures FirstUnsupplied(EssentialFactFields, fact, fm) == 3
    ensures Supplies(fact, MappedKey(fm, "operator")) && "operator" in fm
    ensures !Supplies(fact, MappedKey(fm, "result"))
  {
    var fs := EssentialFactFields;
    assert fs[0] == "index" && fs[1] == "operands" && fs[2] == "operator" && fs[3] == "result";
    assert NoResultFields[0] == "index" && NoResultFields[1] == "operands" && NoResultFields[2] == "operator";
    assert "result" !in NoResultFields;
    var i := FirstUnsupplied(fs, fact, fm);
    assert i <= 3;
    assert i != 0 && i != 1 && i != 2;
  }

  /** A fact missing its `result` is dropped and counted as skipped, with
      exactly one warning naming its level, its index and `result`. */
  lemma DroppedWithoutResult(v: Variant, fact: Obj, fm: FieldMapping, ctx: LevelLabel, st: Stats)
    requires Keys(fact) == NoResultFields && IdentityOn(fm)
    ensures FactRecord(v, fact, fm, []) == None
    ensures EssentialWarnings(EssentialFactFields, fact, fm, TypeHolder(v, fact), ctx) == [MissingEssential(ctx, Lookup(fact, "index"), "result")]
    ensures var r := FactStep(v, fact, fm, [], ctx, st);
      && r.0 == None
      && r.1 == st.(factsSkipped := st.factsSkipped + 1,
                    warnings := st.warnings + [MissingEssential(ctx, Lookup(fact, "index"), "result")])
  {
    NoResultGap(fact, fm);
    RequiredAreEssential();
    assert RequiredFactFields[2] == "result";
    var fs := EssentialFactFields;
    assert fs[..3][2] == "operator";
    assert EssentialWarnings(fs, fact, fm, TypeHolder(v, fact), ctx) == [MissingEssential(ctx, Lookup(fact, "index"), "result")];
  }

  /** The reference survivors and warnings of a kept fact followed by one
      missing its `result`. */
  lemma KeptThenDroppedReference(v: Variant, a: Obj, b: Obj, fm: FieldMapping, ctx: LevelLabel)
    requires Keys(a) == EssentialFactFields && Keys(b) == NoResultFields && IdentityOn(fm)
    ensures Survivors(v, [JObj(a), JObj(b)], fm, []) == [a]
    ensures FactsWarnings(v, [JObj(a), JObj(b)], fm, ctx) == [MissingEssential(ctx, Lookup(b, "index"), "result")]
  {
    KeptThenDroppedSurvivors(v, a, b, fm);
    var items := [JObj(a), JObj(b)];
    var w := MissingEssential(ctx, Lookup(b, "index"), "result");
    var one := [JObj(b)];
    assert items[1..] == one && one[1..] == [];
    NormalisedNoWarnings(TypeHolder(v, a), a, fm, ctx);
    DroppedWithoutResult(v, b, fm, ctx, InitialStats);
    assert FactsWarnings(v, one, fm, ctx) == [w] + FactsWarnings(v, [], fm, ctx);
    assert FactsWarnings(v, items, fm, ctx) == [] + FactsWarnings(v, one, fm, ctx);
  }

  lemma KeptThenDroppedSurvivors(v: Variant, a: Obj, b: Obj, fm: FieldMapping)
    requires Keys(a) == EssentialFactFields && Keys(b) == NoResultFields && IdentityOn(fm)
    ensures Survivors(v, [JObj(a), JObj(b)], fm, []) == [a]
  {
    var items := [JObj(a), JObj(b)];
    var one := [JObj(b)];
    assert items[1..] == one && one[1..] == [];
    NormalisedRecord(v, a, fm);
    DroppedWithoutResult(v, b, fm, Numbered(0), InitialStats);
    assert Survivors(v, one, fm, []) == [] + Survivors(v, [], fm, []);
    assert Survivors(v, items, fm, []) == [a] + Survivors(v, one, fm, []);
  }

  /** The list of a kept fact and one missing its `result` gets through,
      and only the first is emitted. */
  lemma KeptThenDroppedOutput(v: Variant, a: Obj, b: Obj, fm: FieldMapping, ctx: LevelLabel, st: Stats)
    requires Keys(a) == EssentialFactFields && Keys(b) == NoResultFields && IdentityOn(fm)
    ensures var r := MapFacts(v, [JObj(a), JObj(b)], fm, [], ctx, st);
      r.Ok? && r.value.0 == [a]
  {
    var items := [JObj(a), JObj(b)];
    KeptThenDroppedSurvivors(v, a, b, fm);
    assert forall i :: 0 <= i < |items| ==> items[i].JObj?;
    MapFactsFails(v, items, fm, [], ctx, st);
    MapFactsSurvivors(v, items, fm, [], ctx, st);
  }

  /** Passing that list counts one processed and one skipped fact and logs
      the one warning. */
  lemma KeptThenDroppedStats(v: Variant, a: Obj, b: Obj, fm: FieldMapping, ctx: LevelLabel, st: Stats)
    requires Keys(a) == EssentialFactFields && Keys(b) == NoResultFields && IdentityOn(fm)
    ensures var r := MapFacts(v, [JObj(a), JObj(b)], fm, [], ctx, st);
      && r.Ok?
      && r.value.1.levelsProcessed == st.levelsProcessed
      && r.value.1.factsProcessed == st.factsProcessed + 1
      && r.value.1.factsSkipped == st.factsSkipped + 1
      && r.value.1.fieldMappings == st.fieldMappings
      && r.value.1.warnings == st.warnings + [MissingEssential(ctx, Lookup(b, "index"), "result")]
  {
    var items := [JObj(a), JObj(b)];
    KeptThenDroppedOutput(v, a, b, fm, ctx, st);
    KeptThenDroppedReference(v, a, b, fm, ctx);
    MapFactsCounts(v, items, fm, [], ctx, st);
    MapFactsWarnings(v, items, fm, [], ctx, st);
  }

  /** A kept fact followed by one missing its `result`: the first is
      emitted and counted as processed, the second counted as skipped with
      its one warning. */
  lemma KeptThenDropped(v: Variant, a: Obj, b: Obj, fm: FieldMapping, ctx: LevelLabel, st: Stats)
    requires Keys(a) == EssentialFactFields && Keys(b) == NoResultFields && IdentityOn(fm)
    ensures var r := MapFacts(v, [JObj(a), JObj(b)], fm, [], ctx, st);
      && r.Ok? && r.value.0 == [a]
      && r.value.1 == st.(factsProcessed := st.factsProcessed + 1, factsSkipped := st.factsSkipped + 1,
                          warnings := st.warnings + [MissingEssential(ctx, Lookup(b, "index"), "result")])
  {
    KeptThenDroppedOutput(v, a, b, fm, ctx, st);
    KeptThenDroppedStats(v, a, b, fm, ctx, st);
  }

  /** `{"index": 1, "operands": [1, 1], "operator": "+", "expression": "1+1"}` */
  const ShortFact: Obj := [
    ("index", JInt(1)), ("operands", JArr([JInt(1), JInt(1)])), ("operator", JStr("+")), ("expression", JStr("1+1"))]

  lemma ShortFactKeys()
    ensures Keys(ShortFact) == NoResultFields && Lookup(ShortFact, "index") == Some(JInt(1))
  {
    KeysAt(ShortFact);
    assert Keys(ShortFact) == NoResultFields;
    GetAt(ShortFact, 0);
  }

  /** The example fact followed by one without `result`, under the example
      mapping: only the first is kept, and the warning names fact 1. */
  lemma AddThenShort(v: Variant, ctx: LevelLabel, st: Stats)
    ensures var r := MapFacts(v, [JObj(AddFact), JObj(ShortFact)], FactIdentity, [], ctx, st);
      && r.Ok? && r.value.0 == [AddFact]
      && r.value.1 == st.(factsProcessed := st.factsProcessed + 1, factsSkipped := st.factsSkipped + 1,
                          warnings := st.warnings + [MissingEssential(ctx, Some(JInt(1)), "result")])
  {
    AddFactKeys();
    FactIdentityIsIdentity();
    ShortFactKeys();
    KeptThenDropped(v, AddFact, ShortFact, FactIdentity, ctx, st);
  }

  /** The plan the documented example leads to. */
  const AddPlan: Plan := Plan(LevelIdentity, [], FactIdentity, [])

  lemma AddPlanValid()
    ensures ValidPlan(AddPlan)
  {
    forall f | f in EssentialLevelFields
      ensures f in LevelIdentity && LevelIdentity[f].Some?
    {
      assert f == "id" || f == "title" || f == "facts";
    }
  }

  lemma AddSampleFact()
    ensures SampleFact(AddLevel, "facts") == Ok(AddFact)
  {
    KeysAt(AddLevel);
    assert Keys(AddLevel) == ["id", "title", "facts"];
    GetAt(AddLevel, 2);
  }

  /** Steps 1 to 3 on the example ask nothing and decide the identity plan. */
  lemma AddAnalysis(sim: Scorer, st: Stats)
    ensures Analyze(AddDoc, false, sim, [], st) == Ok(Analysis([JObj(AddLevel)], AddPlan, [], st))
  {
    AddFindLevels();
    AddLevelChoices(sim, st);
    AddSampleFact();
    AddFactChoices(sim, st);
    assert EssentialLevelFields[2] == "facts";
    assert DecidePlan(AddLevel, false, sim, [], st) == Ok((AddPlan, [], st));
  }

  const AddHead: Obj := [("id", JStr("L1")), ("title", JStr("Adding"))]

  const AddOutLevel: Obj := [
    ("id", JStr("L1")), ("title", JStr("Adding")), ("factCount", JInt(1)), ("facts", JArr([JObj(AddFact)]))]

  /** A level with both an id and a title, under a plan mapping each to
      itself with no optional level field, heads its record with exactly
      those two entries. */
  lemma PresentHead(o: Obj, p: Plan)
    requires ValidPlan(p) && p.levelOpt == []
    requires p.levelMap["id"] == Some("id") && p.levelMap["title"] == Some("title")
    requires Has(o, "id") && Has(o, "title")
    ensures LevelHead(o, p) == [("id", Get(o, "id")), ("title", Get(o, "title"))]
  {
    var t1 := [("id", Get(o, "id"))];
    SetFresh([], "id", Get(o, "id"));
    KeysAt(t1);
    SetFresh(t1, "title", Get(o, "title"));
    var fs: seq<string> := ["id", "title"];
    assert fs[1..] == ["title"] && fs[1..][1..] == [];
    assert CopyMapped(fs, o, p.levelMap, []) == CopyMapped(fs[1..], o, p.levelMap, t1);
  }

  lemma AddLevelHead()
    ensures LevelHead(AddLevel, AddPlan) == AddHead
  {
    AddPlanValid();
    KeysAt(AddLevel);
    assert Keys(AddLevel) == ["id", "title", "facts"];
    GetAt(AddLevel, 0);
    GetAt(AddLevel, 1);
    PresentHead(AddLevel, AddPlan);
  }

  /** Facts already in the target shape all survive, unchanged. */
  lemma {:induction false} NormalisedSurvivors(v: Variant, facts: seq<Obj>, fm: FieldMapping)
    requires forall i :: 0 <= i < |facts| ==> Keys(facts[i]) == EssentialFactFields
    requires IdentityOn(fm)
    ensures Survivors(v, ObjArray(facts), fm, []) == facts
  {
    if facts != [] {
      var items := ObjArray(facts);
      assert items[1..] == ObjArray(facts[1..]);
      NormalisedRecord(v, facts[0], fm);
      NormalisedSurvivors(v, facts[1..], fm);
      assert [facts[0]] + facts[1..] == facts;
    }
  }

  /** Facts already in the target shape log no warning. */
  lemma {:induction false} NormalisedFactsQuiet(v: Variant, facts: seq<Obj>, fm: FieldMapping, ctx: LevelLabel)
    requires forall i :: 0 <= i < |facts| ==> Keys(facts[i]) == EssentialFactFields
    requires IdentityOn(fm)
    ensures FactsWarnings(v, ObjArray(facts), fm, ctx) == []
  {
    if facts != [] {
      var items := ObjArray(facts);
      assert items[1..] == ObjArray(facts[1..]);
      NormalisedNoWarnings(TypeHolder(v, facts[0]), facts[0], fm, ctx);
      NormalisedFactsQuiet(v, facts[1..], fm, ctx);
    }
  }

  /** A list of facts already in the target shape passes the fact loop
      unchanged, every fact counted as processed and nothing else moved. */
  lemma NormalisedFacts(v: Variant, facts: seq<Obj>, fm: FieldMapping, ctx: LevelLabel, st: Stats)
    requires forall i :: 0 <= i < |facts| ==> Keys(facts[i]) == EssentialFactFields
    requires IdentityOn(fm)
    ensures MapFacts(v, ObjArray(facts), fm, [], ctx, st) == Ok((facts, st.(factsProcessed := st.factsProcessed + |facts|)))
  {
    var items := ObjArray(facts);
    MapFactsFails(v, items, fm, [], ctx, st);
    MapFactsSurvivors(v, items, fm, [], ctx, st);
    MapFactsCounts(v, items, fm, [], ctx, st);
    MapFactsWarnings(v, items, fm, [], ctx, st);
    NormalisedSurvivors(v, facts, fm);
    NormalisedFactsQuiet(v, facts, fm, ctx);
    var st' := MapFacts(v, items, fm, [], ctx, st).value.1;
    assert st'.warnings == st.warnings;
    assert st' == st.(factsProcessed := st.factsProcessed + |facts|);
  }

  /** On a record without them, `factCount` and `facts` are appended. */
  lemma FreshFacts(t: Obj, facts: seq<Obj>)
    requires !Has(t, "factCount") && !Has(t, "facts")
    ensures WithFacts(t, facts) == t + [("factCount", JInt(|facts|)), ("facts", JArr(ObjArray(facts)))]
  {
    SetFresh(t, "factCount", JInt(|facts|));
    var t1 := t + [("factCount", JInt(|facts|))];
    assert Keys(t1) == Keys(t) + ["factCount"];
    assert !Has(t1, "facts");
    SetFresh(t1, "facts", JArr(ObjArray(facts)));
    assert WithFacts(t, facts) == Set(t1, "facts", JArr(ObjArray(facts)));
  }

  lemma AddHeadFresh()
    ensures !Has(AddHead, "factCount") && !Has(AddHead, "facts")
  {
    KeysAt(AddHead);
  }

  lemma AddFactArray()
    ensures ObjArray([AddFact]) == [JObj(AddFact)]
  {
  }

  lemma AddWithFacts()
    ensures WithFacts(AddHead, [AddFact]) == AddOutLevel
  {
    AddHeadFresh();
    AddFactArray();
    FreshFacts(AddHead, [AddFact]);
  }

  /** A level whose facts are already in the target shape, under a plan
      that maps every fact field to itself and selects no optional field, is
      got through with every fact kept and nothing logged. */
  lemma NormalisedLevel(v: Variant, o: Obj, p: Plan, facts: seq<Obj>, position: nat)
    requires ValidPlan(p) && IdentityOn(p.factMap) && p.factOpt == []
    requires FactsValue(o, p) == JArr(ObjArray(facts))
    requires forall i :: 0 <= i < |facts| ==> Keys(facts[i]) == EssentialFactFields
    ensures LevelOk(JObj(o), p)
    ensures LevelFacts(v, o, p) == facts && LevelItemCount(o, p) == |facts|
    ensures LevelWarnings(v, o, position, p) == []
    ensures LevelRecord(v, o, p) == WithFacts(LevelHead(o, p), facts)
  {
    NormalisedSurvivors(v, facts, p.factMap);
    NormalisedFactsQuiet(v, facts, p.factMap, LevelContext(LevelHead(o, p), position));
  }

  /** The example level is rebuilt with `factCount` 1 and its one fact,
      which is kept without a warning. */
  lemma AddLevelRecord(v: Variant)
    ensures LevelOk(JObj(AddLevel), AddPlan)
    ensures LevelRecord(v, AddLevel, AddPlan) == AddOutLevel
    ensures LevelFacts(v, AddLevel, AddPlan) == [AddFact] && LevelItemCount(AddLevel, AddPlan) == 1
    ensures LevelWarnings(v, AddLevel, 1, AddPlan) == []
  {
    AddLevelHead();
    AddLevelFacts();
    AddFactKeys();
    FactIdentityIsIdentity();
    NormalisedLevel(v, AddLevel, AddPlan, [AddFact], 1);
    AddWithFacts();
  }

  lemma AddLevelFacts()
    ensures ValidPlan(AddPlan) && FactsValue(AddLevel, AddPlan) == JArr(ObjArray([AddFact]))
  {
    AddPlanValid();
    KeysAt(AddLevel);
    assert Keys(AddLevel) == ["id", "title", "facts"];
    GetAt(AddLevel, 2);
    AddFactArray();
  }

  /** A single level that loses no fact and logs nothing is counted once,
      with its facts as processed, and rebuilt as its reference record. */
  lemma OneLevel(v: Variant, o: Obj, p: Plan, st: Stats, facts: seq<Obj>, rec: Obj)
    requires ValidPlan(p) && LevelOk(JObj(o), p)
    requires LevelFacts(v, o, p) == facts && LevelItemCount(o, p) == |facts|
    requires LevelWarnings(v, o, 1, p) == [] && LevelRecord(v, o, p) == rec
    ensures var r := AssembleLevels(v, [JObj(o)], 1, p, st);
      && r.Ok? && r.value.0 == [rec]
      && r.value.1 == st.(levelsProcessed := st.levelsProcessed + 1, factsProcessed := st.factsProcessed + |facts|)
  {
    LevelStats(v, o, p, st, facts);
    SingleLevel(v, JObj(o), 1, p, st);
  }

  /** The statistics after such a level: one level and its facts counted. */
  lemma LevelStats(v: Variant, o: Obj, p: Plan, st: Stats, facts: seq<Obj>)
    requires ValidPlan(p) && LevelOk(JObj(o), p)
    requires LevelFacts(v, o, p) == facts && LevelItemCount(o, p) == |facts|
    requires LevelWarnings(v, o, 1, p) == []
    ensures AssembleLevel(v, JObj(o), 1, p, st).Ok?
    ensures AssembleLevel(v, JObj(o), 1, p, st).value.1
      == st.(levelsProcessed := st.levelsProcessed + 1, factsProcessed := st.factsProcessed + |facts|)
  {
    var (lv, st1) := AssembleLevel(v, JObj(o), 1, p, st).value;
    assert st1.warnings == st.warnings;
    assert st1.levelsProcessed == st.levelsProcessed + 1;
    assert st1.factsProcessed == st.factsProcessed + |facts|;
    assert st1.factsSkipped == st.factsSkipped;
    assert st1.fieldMappings == st.fieldMappings;
    assert st1 == st.(levelsProcessed := st.levelsProcessed + 1, factsProcessed := st.factsProcessed + |facts|);
  }

  lemma SingleLevel(v: Variant, level: Json, position: nat, p: Plan, st: Stats)
    requires ValidPlan(p) && AssembleLevel(v, level, position, p, st).Ok?
    ensures AssembleLevels(v, [level], position, p, st)
      == Ok(([AssembleLevel(v, level, position, p, st).value.0], AssembleLevel(v, level, position, p, st).value.1))
  {
    var (lv, st1) := AssembleLevel(v, level, position, p, st).value;
    assert [level][1..] == [];
    assert AssembleLevels(v, [], position + 1, p, st1) == Ok(([], st1));
    assert [lv] + [] == [lv];
  }

  /** Step 4 on the example: the one level rebuilt, one level and one fact
      counted, nothing skipped or logged. */
  lemma AddAssembly(v: Variant, st: Stats)
    ensures var r := AssembleLevels(v, [JObj(AddLevel)], 1, AddPlan, st);
      && r.Ok? && r.value.0 == [AddOutLevel]
      && r.value.1 == st.(levelsProcessed := st.levelsProcessed + 1, factsProcessed := st.factsProcessed + 1)
  {
    AddLevelRecord(v);
    AddPlanValid();
    assert LevelOk(JObj(AddLevel), AddPlan);
    assert LevelFacts(v, AddLevel, AddPlan) == [AddFact];
    assert LevelItemCount(AddLevel, AddPlan) == |[AddFact]|;
    assert LevelWarnings(v, AddLevel, 1, AddPlan) == [];
    assert LevelRecord(v, AddLevel, AddPlan) == AddOutLevel;
    OneLevel(v, AddLevel, AddPlan, st, [AddFact], AddOutLevel);
  }

  /** A conversion is its analysis followed by the level loop over the
      levels found, from position 1. */
  lemma ConvertVia(v: Variant, doc: Json, includeAll: bool, sim: Scorer, lines: Lines, st: Stats, a: Analysis)
    requires Analyze(doc, includeAll, sim, lines, st) == Ok(a)
    ensures var r := ConvertJson(v, doc, includeAll, sim, lines, st);
      var levels := AssembleLevels(v, a.levels, 1, a.plan, a.stats);
      && (r.Ok? <==> levels.Ok?)
      && (r.Ok? ==> r.value.0 == JObj([("levels", JArr(ObjArray(levels.value.0)))]) && r.value.1 == levels.value.1)
  {
  }

  /** Steps 1 to 4 on the example, up to the level loop's result. */
  lemma AddPipeline(v: Variant, sim: Scorer, st: Stats)
    ensures var r := ConvertJson(v, AddDoc, false, sim, [], st);
      var levels := AssembleLevels(v, [JObj(AddLevel)], 1, AddPlan, st);
      && (r.Ok? <==> levels.Ok?)
      && (r.Ok? ==> r.value.0 == JObj([("levels", JArr(ObjArray(levels.value.0)))]) && r.value.1 == levels.value.1)
  {
    AddAnalysis(sim, st);
    AddPlanValid();
    ConvertVia(v, AddDoc, false, sim, [], st, Analysis([JObj(AddLevel)], AddPlan, [], st));
  }

  /** The whole example: no prompt, the one level and its one fact kept as
      they are, one level and one fact counted, nothing skipped or logged. */
  lemma AddConversion(v: Variant, sim: Scorer, st: Stats)
    ensures ConvertJson(v, AddDoc, false, sim, [], st).Ok?
    ensures ConvertJson(v, AddDoc, false, sim, [], st).value.0 == AddOutput
    ensures ConvertJson(v, AddDoc, false, sim, [], st).value.1
         == st.(levelsProcessed := st.levelsProcessed + 1, factsProcessed := st.factsProcessed + 1)
  {
    AddPipeline(v, sim, st);
    AddAssembly(v, st);
    assert ObjArray([AddOutLevel]) == [JObj(AddOutLevel)];
  }
}
