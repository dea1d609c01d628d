/** Step 4 of `convert_json`: every level record rebuilt with its mapped
    fields, optional fields, surviving facts and `factCount`. */
module Assembly {
  import opened Wrappers
  import opened Json
  import opened Schema
  import opened Report
  import opened Facts

  /** The mappings and optional-field lists decided on the sample records. */
  datatype Plan = Plan(levelMap: FieldMapping, levelOpt: seq<string>, factMap: FieldMapping, factOpt: seq<string>)

  /** Every essential level field is mapped to a source key. */
  predicate ValidPlan(p: Plan) {
    forall f :: f in EssentialLevelFields ==> f in p.levelMap && p.levelMap[f].Some?
  }

  /** What `for source_fact in source_facts` iterates over: a list gives its
      items; an empty dict or string gives nothing; a non-empty dict or string
      yields strings that `map_fact` cannot survive, and any other value is
      not iterable. */
  function FactItems(v: Json): (r: Result<seq<Json>, Failure>)
    ensures r.Ok? <==> v.JArr? || v == JObj([]) || v == JStr("")
    ensures r.Ok? && v.JArr? ==> r.value == v.items
    ensures r.Ok? && !v.JArr? ==> r.value == []
    ensures r.Err? ==> r.error == Crash
  {
    match v
    case JArr(items) => Ok(items)
    case JObj(fields) => if fields == [] then Ok([]) else Err(Crash)
    case JStr(s) => if s == "" then Ok([]) else Err(Crash)
    case _ => Err(Crash)
  }

  /** The record `map_fact` makes of a fact, independent of the statistics
      and of the level it is reported under. */
  function FactRecord(v: Variant, fact: Obj, fm: FieldMapping, opt: seq<string>): Option<Obj> {
    MapFactOf(v, fact, fm, opt, Numbered(0), InitialStats).0
  }

  /** One pass of the fact loop: `map_fact`, then `facts_skipped += 1` when
      it rejects the fact. Exactly one of processed and skipped moves. */
  function FactStep(v: Variant, fact: Obj, fm: FieldMapping, opt: seq<string>, ctx: LevelLabel, st: Stats): (r: (Option<Obj>, Stats))
    ensures r.0 == FactRecord(v, fact, fm, opt)
    ensures r.0.None? <==> exists f :: f in RequiredFactFields && !Supplies(fact, MappedKey(fm, f))
    ensures r.1.factsProcessed == st.factsProcessed + (if r.0.Some? then 1 else 0)
    ensures r.1.factsSkipped == st.factsSkipped + (if r.0.None? then 1 else 0)
    ensures r.1.levelsProcessed == st.levelsProcessed && r.1.fieldMappings == st.fieldMappings
    ensures r.1.warnings == st.warnings + EssentialWarnings(EssentialFactFields, fact, fm, TypeHolder(v, fact), ctx)
  {
    MapFactOutcome(v, fact, fm, opt, ctx, st);
    MapFactWarnings(v, fact, fm, opt, ctx, st);
    MapFactIndependent(v, fact, fm, opt, ctx, st, Numbered(0), InitialStats);
    var (res, st1) := MapFactOf(v, fact, fm, opt, ctx, st);
    (res, if res.None? then st1.(factsSkipped := st1.factsSkipped + 1) else st1)
  }

  /** In the fact loop as written, a fact whose operator must be derived is
      kept with operator "" and draws the missing-operator warning; the
      corrected loop uses the table entry for the fact's own type. */
  lemma FactStepOperator(fact: Obj, fm: FieldMapping, opt: seq<string>, ctx: LevelLabel, st: Stats)
    requires NeedsDerivedOperator(fact, fm) && "operator" !in opt
    ensures var r := FactStep(AsWritten, fact, fm, opt, ctx, st);
      r.0.Some? ==> Has(r.0.value, "operator") && Get(r.0.value, "operator") == JStr("")
                    && r.1.warnings == st.warnings + [NoOperator(ctx, FactIndexLabel(fact))]
    ensures var r := FactStep(Corrected, fact, fm, opt, ctx, st);
      r.0.Some? ==> Has(r.0.value, "operator") && Get(r.0.value, "operator") == JStr(AutoGenerateOperator(TypeCode(fact)))
  {
    MapFactAsWrittenLosesOperator(fact, fm, opt, ctx, st);
    MapFactDerivesOperator(fact, fm, opt, ctx, st);
  }

  /** The fact loop of one level: each fact mapped in order, survivors kept,
      each rejection counted in `facts_skipped`. A fact that is not a dict
      makes `map_fact`'s own error handler raise. */
  function MapFacts(v: Variant, items: seq<Json>, fm: FieldMapping, opt: seq<string>, ctx: LevelLabel, st: Stats)
    : (r: Result<(seq<Obj>, Stats), Failure>)
    ensures r.Err? ==> r.error == Crash
  {
    if items == [] then Ok(([], st))
    else if !items[0].JObj? then Err(Crash)
    else
      var (res, st1) := FactStep(v, items[0].fields, fm, opt, ctx, st);
      match MapFacts(v, items[1..], fm, opt, ctx, st1)
      case Err(e) => Err(e)
      case Ok((rest, st2)) => Ok(((if res.Some? then [res.value] else []) + rest, st2))
  }

  /** Reference definition of a level's facts: the records of the accepted
      facts, in source order. */
  function Survivors(v: Variant, items: seq<Json>, fm: FieldMapping, opt: seq<string>): seq<Obj> {
    if items == [] then []
    else
      var rec := if items[0].JObj? then FactRecord(v, items[0].fields, fm, opt) else None;
      (if rec.Some? then [rec.value] else []) + Survivors(v, items[1..], fm, opt)
  }

  lemma AllDictsTail(items: seq<Json>)
    requires items != [] && items[0].JObj?
    ensures (forall i :: 0 <= i < |items| ==> items[i].JObj?) <==> (forall i :: 0 <= i < |items[1..]| ==> items[1..][i].JObj?)
  {
    assert forall i :: 1 <= i < |items| ==> items[i] == items[1..][i - 1];
  }

  /** The fact loop fails exactly when some fact is not a dict. */
  lemma {:induction false} MapFactsFails(v: Variant, items: seq<Json>, fm: FieldMapping, opt: seq<string>, ctx: LevelLabel, st: Stats)
    ensures MapFacts(v, items, fm, opt, ctx, st).Ok? <==> forall i :: 0 <= i < |items| ==> items[i].JObj?
  {
    if items != [] && items[0].JObj? {
      var st1 := FactStep(v, items[0].fields, fm, opt, ctx, st).1;
      MapFactsFails(v, items[1..], fm, opt, ctx, st1);
      assert MapFacts(v, items, fm, opt, ctx, st).Ok? <==> MapFacts(v, items[1..], fm, opt, ctx, st1).Ok?;
      AllDictsTail(items);
    }
  }

  /** The surviving facts are exactly the reference survivors, in order. */
  lemma {:induction false} MapFactsSurvivors(v: Variant, items: seq<Json>, fm: FieldMapping, opt: seq<string>, ctx: LevelLabel, st: Stats)
    requires MapFacts(v, items, fm, opt, ctx, st).Ok?
    ensures MapFacts(v, items, fm, opt, ctx, st).value.0 == Survivors(v, items, fm, opt)
  {
    if items != [] {
      MapFactsSurvivors(v, items[1..], fm, opt, ctx, FactStep(v, items[0].fields, fm, opt, ctx, st).1);
    }
  }

  /** Per level, every fact is either emitted and counted as processed or
      skipped and counted as skipped; no other counter or log moves, and
      warnings are only appended. */
  lemma {:induction false} MapFactsCounts(v: Variant, items: seq<Json>, fm: FieldMapping, opt: seq<string>, ctx: LevelLabel, st: Stats)
    requires MapFacts(v, items, fm, opt, ctx, st).Ok?
    ensures var (out, st') := MapFacts(v, items, fm, opt, ctx, st).value;
      && st'.factsProcessed == st.factsProcessed + |out|
      && st'.factsSkipped + |out| == st.factsSkipped + |items|
      && st'.levelsProcessed == st.levelsProcessed
      && st'.fieldMappings == st.fieldMappings
      && |st'.warnings| >= |st.warnings| && st'.warnings[..|st.warnings|] == st.warnings
  {
    if items != [] {
      var st1 := FactStep(v, items[0].fields, fm, opt, ctx, st).1;
      MapFactsCounts(v, items[1..], fm, opt, ctx, st1);
      var w := MapFacts(v, items[1..], fm, opt, ctx, st1).value.1.warnings;
      assert st1.warnings[..|st.warnings|] == st.warnings;
      assert w[..|st1.warnings|][..|st.warnings|] == st.warnings;
    }
  }

  /** The id and title loop: each field copied when its mapped key is in the
      level, left out otherwise. */
  function CopyMapped(fields: seq<string>, o: Obj, lm: FieldMapping, target: Obj): Obj
    requires forall f :: f in fields ==> f in lm && lm[f].Some?
  {
    if fields == [] then target
    else
      var k := lm[fields[0]].value;
      var t := if Has(o, k) then Set(target, fields[0], Get(o, k)) else target;
      CopyMapped(fields[1..], o, lm, t)
  }

  /** Reference definition of the warnings a level's facts log: each
      fact's essential-field warnings, in order. */
  function FactsWarnings(v: Variant, items: seq<Json>, fm: FieldMapping, ctx: LevelLabel): seq<Warning> {
    if items == [] then []
    else
      (if items[0].JObj? then EssentialWarnings(EssentialFactFields, items[0].fields, fm, TypeHolder(v, items[0].fields), ctx) else [])
      + FactsWarnings(v, items[1..], fm, ctx)
  }

  /** The fact loop appends exactly the reference warnings. */
  lemma {:induction false} MapFactsWarnings(v: Variant, items: seq<Json>, fm: FieldMapping, opt: seq<string>, ctx: LevelLabel, st: Stats)
    requires MapFacts(v, items, fm, opt, ctx, st).Ok?
    ensures MapFacts(v, items, fm, opt, ctx, st).value.1.warnings == st.warnings + FactsWarnings(v, items, fm, ctx)
  {
    if items != [] {
      var st1 := FactStep(v, items[0].fields, fm, opt, ctx, st).1;
      MapFactsStep(v, items, fm, opt, ctx, st);
      var w0 := EssentialWarnings(EssentialFactFields, items[0].fields, fm, TypeHolder(v, items[0].fields), ctx);
      var ws := FactsWarnings(v, items[1..], fm, ctx);
      assert FactsWarnings(v, items, fm, ctx) == w0 + ws;
      MapFactsWarnings(v, items[1..], fm, opt, ctx, st1);
      assert st1.warnings + ws == st.warnings + (w0 + ws);
    }
  }

  /** One turn of the fact loop: the rest of the loop runs on the
      statistics the first fact leaves. */
  lemma MapFactsStep(v: Variant, items: seq<Json>, fm: FieldMapping, opt: seq<string>, ctx: LevelLabel, st: Stats)
    requires MapFacts(v, items, fm, opt, ctx, st).Ok? && items != []
    ensures var st1 := FactStep(v, items[0].fields, fm, opt, ctx, st).1;
      && MapFacts(v, items[1..], fm, opt, ctx, st1).Ok?
      && MapFacts(v, items, fm, opt, ctx, st).value.1 == MapFacts(v, items[1..], fm, opt, ctx, st1).value.1
  {
  }

  /** The id and title loop copies exactly the fields whose mapped key the
      level has, each with that key's value, and leaves every other entry of
      the record alone. */
  lemma {:induction false} CopyMappedRecord(fields: seq<string>, o: Obj, lm: FieldMapping, target: Obj)
    requires forall f :: f in fields ==> f in lm && lm[f].Some?
    ensures var r := CopyMapped(fields, o, lm, target);
      && (forall k :: Has(r, k) <==> Has(target, k) || (k in fields && Has(o, lm[k].value)))
      && (forall k :: k in fields && Has(o, lm[k].value) ==> Get(r, k) == Get(o, lm[k].value))
      && (forall k :: k !in fields && Has(target, k) ==> Get(r, k) == Get(target, k))
      && (DistinctKeys(target) ==> DistinctKeys(r))
  {
    if fields != [] {
      var f := fields[0];
      var k := lm[f].value;
      var t := if Has(o, k) then Set(target, f, Get(o, k)) else target;
      if Has(o, k) { SetKeepsDistinctIf(target, f, Get(o, k)); }
      assert forall g :: g in fields <==> g == f || g in fields[1..];
      CopyMappedRecord(fields[1..], o, lm, t);
    }
  }

  /** A list of records as a JSON list. */
  function ObjArray(os: seq<Obj>): (a: seq<Json>)
    ensures |a| == |os| && forall i :: 0 <= i < |os| ==> a[i] == JObj(os[i])
  {
    seq(|os|, i requires 0 <= i < |os| => JObj(os[i]))
  }

  /** `target_level['factCount'] = len(target_facts)` then
      `target_level['facts'] = target_facts`. */
  function WithFacts(t: Obj, facts: seq<Obj>): (r: Obj)
    ensures Has(r, "factCount") && Get(r, "factCount") == JInt(|facts|)
    ensures Has(r, "facts") && Get(r, "facts") == JArr(ObjArray(facts))
    ensures forall k :: k != "factCount" && k != "facts" ==> (Has(r, k) <==> Has(t, k))
    ensures forall k :: k != "factCount" && k != "facts" && Has(t, k) ==> Get(r, k) == Get(t, k)
  {
    var t1 := Set(t, "factCount", JInt(|facts|));
    var r := Set(t1, "facts", JArr(ObjArray(facts)));
    SetHas(t, "factCount", JInt(|facts|));
    SetHas(t1, "facts", JArr(ObjArray(facts)));
    r
  }

  /** Both keys are appended, in that order, to a record that lacks them,
      and no key is duplicated. */
  lemma WithFactsKeys(t: Obj, facts: seq<Obj>)
    ensures !Has(t, "factCount") && !Has(t, "facts") ==> Keys(WithFacts(t, facts)) == Keys(t) + ["factCount", "facts"]
    ensures DistinctKeys(t) ==> DistinctKeys(WithFacts(t, facts))
  {
    var t1 := Set(t, "factCount", JInt(|facts|));
    SetKeepsDistinctIf(t, "factCount", JInt(|facts|));
    SetKeepsDistinctIf(t1, "facts", JArr(ObjArray(facts)));
    SetHas(t, "factCount", JInt(|facts|));
  }

  /** The level record before `factCount` and `facts`: mapped id and title,
      then the optional level fields the level has. */
  function LevelHead(o: Obj, p: Plan): Obj
    requires ValidPlan(p)
  {
    CopyOptional(p.levelOpt, o, map[], CopyMapped(["id", "title"], o, p.levelMap, []))
  }

  /** The level record before its facts holds the mapped id and title the
      level has and the selected optional fields the level has, with their
      values, and nothing else. */
  lemma LevelHeadRecord(o: Obj, p: Plan)
    requires ValidPlan(p)
    ensures var h := LevelHead(o, p);
      && (forall k :: Has(h, k) <==> (k in ["id", "title"] && Has(o, p.levelMap[k].value)) || (k in p.levelOpt && Has(o, k)))
      && (forall k :: k in p.levelOpt && Has(o, k) ==> Get(h, k) == Get(o, k))
      && (forall k :: k in ["id", "title"] && k !in p.levelOpt && Has(o, p.levelMap[k].value) ==> Get(h, k) == Get(o, p.levelMap[k].value))
      && DistinctKeys(h)
  {
    var base := CopyMapped(["id", "title"], o, p.levelMap, []);
    assert DistinctKeys([]);
    CopyMappedRecord(["id", "title"], o, p.levelMap, []);
    CopyOptionalRecord(p.levelOpt, o, map[], base);
  }

  /** `target_level.get('title', f'Level {i}')` */
  function LevelContext(head: Obj, position: nat): LevelLabel {
    if Has(head, "title") then Titled(Get(head, "title")) else Numbered(position)
  }

  /** The facts value of a level, `source_level.get(facts_key, [])`. */
  function FactsValue(o: Obj, p: Plan): Json
    requires ValidPlan(p)
  {
    var k := p.levelMap["facts"].value;
    if Has(o, k) then Get(o, k) else JArr([])
  }

  /** One pass of the level loop (`position` counts from 1). A level that is
      not a dict raises at `.get`. The pass succeeds exactly on a level it can
      get through, whatever the position and statistics; it then yields the
      reference record, adds one level, adds the survivors to the processed
      count and the rest to the skipped count, and only appends warnings. */
  function AssembleLevel(v: Variant, level: Json, position: nat, p: Plan, st: Stats): (r: Result<(Obj, Stats), Failure>)
    requires ValidPlan(p)
    ensures r.Ok? <==> LevelOk(level, p)
    ensures r.Err? ==> r.error == Crash
    ensures r.Ok? ==>
      && r.value.0 == LevelRecord(v, level.fields, p)
      && r.value.1.levelsProcessed == st.levelsProcessed + 1
      && r.value.1.factsProcessed == st.factsProcessed + |LevelFacts(v, level.fields, p)|
      && r.value.1.factsSkipped + |LevelFacts(v, level.fields, p)| == st.factsSkipped + LevelItemCount(level.fields, p)
      && r.value.1.fieldMappings == st.fieldMappings
      && r.value.1.warnings == st.warnings + LevelWarnings(v, level.fields, position, p)
  {
    if !level.JObj? then Err(Crash)
    else
      var o := level.fields;
      var head := LevelHead(o, p);
      match FactItems(FactsValue(o, p))
      case Err(e) => Err(e)
      case Ok(items) =>
        var ctx := LevelContext(head, position);
        MapFactsFails(v, items, p.factMap, p.factOpt, ctx, st);
        match MapFacts(v, items, p.factMap, p.factOpt, ctx, st)
        case Err(e) => Err(e)
        case Ok((facts, st1)) =>
          MapFactsSurvivors(v, items, p.factMap, p.factOpt, ctx, st);
          MapFactsCounts(v, items, p.factMap, p.factOpt, ctx, st);
          MapFactsWarnings(v, items, p.factMap, p.factOpt, ctx, st);
          Ok((WithFacts(head, facts), st1.(levelsProcessed := st1.levelsProcessed + 1)))
  }

  /** The level loop over all levels, in order. */
  function AssembleLevels(v: Variant, levels: seq<Json>, position: nat, p: Plan, st: Stats): (r: Result<(seq<Obj>, Stats), Failure>)
    requires ValidPlan(p)
    ensures r.Err? ==> r.error == Crash
  {
    if levels == [] then Ok(([], st))
    else
      match AssembleLevel(v, levels[0], position, p, st)
      case Err(e) => Err(e)
      case Ok((lv, st1)) =>
        match AssembleLevels(v, levels[1..], position + 1, p, st1)
        case Err(e) => Err(e)
        case Ok((rest, st2)) => Ok(([lv] + rest, st2))
  }

  /** Reference definition of a level's facts: the survivors of its facts
      value, nothing when that value cannot be iterated. */
  function LevelFacts(v: Variant, o: Obj, p: Plan): seq<Obj>
    requires ValidPlan(p)
  {
    match FactItems(FactsValue(o, p))
    case Ok(items) => Survivors(v, items, p.factMap, p.factOpt)
    case Err(_) => []
  }

  /** The number of facts a level offers. */
  function LevelItemCount(o: Obj, p: Plan): nat
    requires ValidPlan(p)
  {
    match FactItems(FactsValue(o, p))
    case Ok(items) => |items|
    case Err(_) => 0
  }

  /** Reference definition of the warnings a level logs: those of its facts,
      reported under the level's title or position. */
  function LevelWarnings(v: Variant, o: Obj, position: nat, p: Plan): seq<Warning>
    requires ValidPlan(p)
  {
    match FactItems(FactsValue(o, p))
    case Ok(items) => FactsWarnings(v, items, p.factMap, LevelContext(LevelHead(o, p), position))
    case Err(_) => []
  }

  /** Reference definition of the warnings a list of levels logs, the first
      at `position`. */
  function TotalWarnings(v: Variant, levels: seq<Json>, position: nat, p: Plan): seq<Warning>
    requires ValidPlan(p)
  {
    if levels == [] then []
    else
      var w := if levels[0].JObj? then LevelWarnings(v, levels[0].fields, position, p) else [];
      w + TotalWarnings(v, levels[1..], position + 1, p)
  }

  /** Reference definition of an output level: its head, then `factCount`
      and `facts`. */
  function LevelRecord(v: Variant, o: Obj, p: Plan): Obj
    requires ValidPlan(p)
  {
    WithFacts(LevelHead(o, p), LevelFacts(v, o, p))
  }

  /** A level the level pass gets through: a dict whose facts value iterates
      to dicts only. */
  predicate LevelOk(level: Json, p: Plan)
    requires ValidPlan(p)
  {
    level.JObj? && FactItems(FactsValue(level.fields, p)).Ok?
    && forall i :: 0 <= i < |FactItems(FactsValue(level.fields, p)).value| ==> FactItems(FactsValue(level.fields, p)).value[i].JObj?
  }

  /** Every output level carries `factCount` equal to the length of its
      `facts` list, and distinct keys. */
  lemma LevelRecordShape(v: Variant, o: Obj, p: Plan)
    requires ValidPlan(p)
    ensures var lv := LevelRecord(v, o, p);
      && Has(lv, "facts") && Get(lv, "facts").JArr? && Get(lv, "factCount") == JInt(|Get(lv, "facts").items|)
      && DistinctKeys(lv)
  {
    LevelHeadRecord(o, p);
    WithFactsKeys(LevelHead(o, p), LevelFacts(v, o, p));
  }

  /** The facts a list of levels keeps. */
  function TotalFacts(v: Variant, levels: seq<Json>, p: Plan): nat
    requires ValidPlan(p)
  {
    if levels == [] then 0
    else (if levels[0].JObj? then |LevelFacts(v, levels[0].fields, p)| else 0) + TotalFacts(v, levels[1..], p)
  }

  /** The facts a list of levels offers. */
  function TotalItems(levels: seq<Json>, p: Plan): nat
    requires ValidPlan(p)
  {
    if levels == [] then 0
    else (if levels[0].JObj? then LevelItemCount(levels[0].fields, p) else 0) + TotalItems(levels[1..], p)
  }

  /** Reference definition of the output levels: each dict level's record,
      in order. */
  function LevelRecords(v: Variant, levels: seq<Json>, p: Plan): (out: seq<Obj>)
    requires ValidPlan(p)
    ensures |out| == |levels|
  {
    if levels == [] then []
    else [RecordOf(v, levels[0], p)] + LevelRecords(v, levels[1..], p)
  }

  /** The record of a dict level; a level that is not a dict never reaches
      the output of a successful pass. */
  function RecordOf(v: Variant, level: Json, p: Plan): Obj
    requires ValidPlan(p)
  {
    if level.JObj? then LevelRecord(v, level.fields, p) else []
  }

  /** The reference records line up with the input levels. */
  lemma {:induction false} LevelRecordsAt(v: Variant, levels: seq<Json>, p: Plan, i: nat)
    requires ValidPlan(p) && i < |levels| && levels[i].JObj?
    ensures LevelRecords(v, levels, p)[i] == LevelRecord(v, levels[i].fields, p)
  {
    RecordsAt(v, levels, p, i);
  }

  lemma {:induction false} RecordsAt(v: Variant, levels: seq<Json>, p: Plan, i: nat)
    requires ValidPlan(p) && i < |levels|
    ensures LevelRecords(v, levels, p)[i] == RecordOf(v, levels[i], p)
  {
    if i > 0 {
      assert levels[i] == levels[1..][i - 1];
      RecordsAt(v, levels[1..], p, i - 1);
    }
  }

  /** The level loop, when it succeeds, emits the reference records. */
  lemma {:induction false} AssembleLevelsRecords(v: Variant, levels: seq<Json>, position: nat, p: Plan, st: Stats)
    requires ValidPlan(p)
    requires AssembleLevels(v, levels, position, p, st).Ok?
    ensures AssembleLevels(v, levels, position, p, st).value.0 == LevelRecords(v, levels, p)
  {
    if levels != [] {
      var st1 := AssembleLevel(v, levels[0], position, p, st).value.1;
      AssembleLevelsRecords(v, levels[1..], position + 1, p, st1);
    }
  }

  /** Every level of a list can be got through. */
  predicate AllLevelsOk(levels: seq<Json>, p: Plan)
    requires ValidPlan(p)
  {
    forall i :: 0 <= i < |levels| ==> LevelOk(levels[i], p)
  }

  lemma AllLevelsOkCons(levels: seq<Json>, p: Plan)
    requires ValidPlan(p) && |levels| > 0
    ensures AllLevelsOk(levels, p) <==> LevelOk(levels[0], p) && AllLevelsOk(levels[1..], p)
  {
    assert forall i :: 1 <= i < |levels| ==> levels[i] == levels[1..][i - 1];
  }

  /** The level loop fails exactly when some level cannot be got through. */
  lemma {:induction false} AssembleLevelsFails(v: Variant, levels: seq<Json>, position: nat, p: Plan, st: Stats)
    requires ValidPlan(p)
    ensures AssembleLevels(v, levels, position, p, st).Ok? <==> AllLevelsOk(levels, p)
  {
    if levels != [] {
      AllLevelsOkCons(levels, p);
      if LevelOk(levels[0], p) {
        var st1 := AssembleLevel(v, levels[0], position, p, st).value.1;
        AssembleLevelsFails(v, levels[1..], position + 1, p, st1);
      }
    }
  }

  /** The level loop counts every level, splits every offered fact between
      processed and skipped, and leaves the field-mapping log alone. */
  lemma {:induction false} AssembleLevelsCounts(v: Variant, levels: seq<Json>, position: nat, p: Plan, st: Stats)
    requires ValidPlan(p)
    requires AssembleLevels(v, levels, position, p, st).Ok?
    ensures var st' := AssembleLevels(v, levels, position, p, st).value.1;
      && st'.levelsProcessed == st.levelsProcessed + |levels|
      && st'.factsProcessed == st.factsProcessed + TotalFacts(v, levels, p)
      && st'.factsSkipped + TotalFacts(v, levels, p) == st.factsSkipped + TotalItems(levels, p)
      && st'.fieldMappings == st.fieldMappings
  {
    if levels != [] {
      var st1 := AssembleLevel(v, levels[0], position, p, st).value.1;
      AssembleLevelsCounts(v, levels[1..], position + 1, p, st1);
    }
  }

  /** The level loop appends exactly the reference warnings. */
  lemma {:induction false} AssembleLevelsWarnings(v: Variant, levels: seq<Json>, position: nat, p: Plan, st: Stats)
    requires ValidPlan(p)
    requires AssembleLevels(v, levels, position, p, st).Ok?
    ensures AssembleLevels(v, levels, position, p, st).value.1.warnings == st.warnings + TotalWarnings(v, levels, position, p)
  {
    if levels != [] {
      var st1 := AssembleLevel(v, levels[0], position, p, st).value.1;
      assert levels[0].JObj?;
      var w0 := LevelWarnings(v, levels[0].fields, position, p);
      var ws := TotalWarnings(v, levels[1..], position + 1, p);
      assert st1.warnings == st.warnings + w0;
      assert TotalWarnings(v, levels, position, p) == w0 + ws;
      AssembleLevelsWarnings(v, levels[1..], position + 1, p, st1);
      assert AssembleLevels(v, levels, position, p, st).value.1 == AssembleLevels(v, levels[1..], position + 1, p, st1).value.1;
      AppendAfter(st.warnings, w0, ws, st1.warnings);
    }
  }
}
