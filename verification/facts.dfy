/** `map_fact` and `auto_generate_operator`: one source fact record turned
    into a target fact, or rejected. */
module Facts {
  import opened Wrappers
  import opened Json
  import opened Schema
  import opened Report

  /** The `type_to_operator` table of `auto_generate_operator`. */
  const TypeToOperator: map<string, string> := map[
    "addition" := "+",
    "subtraction" := "-",
    "multiplication" := "*",
    "division" := "/",
    "identify_numerator" := "identify",
    "identify_denominator" := "identify",
    "compare_to_half" := "compare",
    "compare_two_fractions" := "compare",
    "equivalent_fill_numerator" := "equivalent",
    "equivalent_fill_denominator" := "equivalent",
    "add_like_denominators" := "+",
    "subtract_like_denominators" := "-",
    "is_unit_fraction" := "identify"
  ]

  /** `auto_generate_operator(fact_type)`: the table's operator, or the empty
      string for a type the table does not list. */
  function AutoGenerateOperator(factType: string): (op: string)
    ensures op != "" <==> factType in TypeToOperator
    ensures op in {"", "+", "-", "*", "/", "identify", "compare", "equivalent"}
  {
    if factType in TypeToOperator then TypeToOperator[factType] else ""
  }

  /** The table has thirteen entries, one per fact type it knows. */
  lemma OperatorTableSize()
    ensures |TypeToOperator| == 13
  {
    var ks := ["addition", "subtraction", "multiplication", "division", "identify_numerator",
               "identify_denominator", "compare_to_half", "compare_two_fractions",
               "equivalent_fill_numerator", "equivalent_fill_denominator",
               "add_like_denominators", "subtract_like_denominators", "is_unit_fraction"];
    assert TypeToOperator.Keys == set k | k in ks;
    assert NoDuplicates(ks);
    DistinctSeqSetSize(ks);
  }

  lemma {:induction false} DistinctSeqSetSize(ks: seq<string>)
    requires NoDuplicates(ks)
    ensures |set k | k in ks| == |ks|
  {
    if ks != [] {
      var rest := ks[1..];
      assert (set k | k in ks) == {ks[0]} + (set k | k in rest);
      assert ks[0] !in rest;
      DistinctSeqSetSize(rest);
    }
  }

  /** The fact type `auto_generate_operator` is given: a string `type` value,
      and the empty string otherwise. */
  function TypeCode(o: Obj): string {
    match Lookup(o, "type")
    case Some(JStr(s)) => s
    case _ => ""
  }

  /** Whether a mapped source key is present in the fact (`key in source_fact`). */
  predicate Supplies(fact: Obj, k: Option<string>) {
    k.Some? && Has(fact, k.value)
  }

  /** The value of a fact's operator, and whether it had to be derived and
      the derivation found nothing (the "No operator found or generated"
      warning). The mapped key wins, then a literal `operator` key, then the
      table applied to the type read from `typeHolder`. */
  function OperatorFor(fact: Obj, m: FieldMapping, typeHolder: Obj): (r: (Json, bool))
    ensures Supplies(fact, MappedKey(m, "operator")) && "operator" in m ==> r == (Get(fact, m["operator"].value), false)
    ensures !(Supplies(fact, MappedKey(m, "operator")) && "operator" in m) && Has(fact, "operator")
      ==> r == (Get(fact, "operator"), false)
    ensures !(Supplies(fact, MappedKey(m, "operator")) && "operator" in m) && !Has(fact, "operator")
      ==> r.0.JStr? && (r.1 <==> TypeCode(typeHolder) !in TypeToOperator)
  {
    var mk := if "operator" in m then m["operator"] else None;
    if mk.Some? && Has(fact, mk.value) then (Get(fact, mk.value), false)
    else if Has(fact, "operator") then (Get(fact, "operator"), false)
    else
      var op := AutoGenerateOperator(TypeCode(typeHolder));
      (JStr(op), op == "")
  }

  /** Every essential field except `operator` is found under its mapped key. */
  predicate AllSupplied(fields: seq<string>, fact: Obj, m: FieldMapping) {
    forall f :: f in fields && f != "operator" ==> Supplies(fact, MappedKey(m, f))
  }

  /** The position of the first field, in declared order, whose mapped key is
      missing from the fact; `|fields|` when there is none. */
  function FirstUnsupplied(fields: seq<string>, fact: Obj, m: FieldMapping): (i: nat)
    ensures i <= |fields|
    ensures i < |fields| ==> fields[i] != "operator" && !Supplies(fact, MappedKey(m, fields[i]))
    ensures forall j :: 0 <= j < i ==> fields[j] == "operator" || Supplies(fact, MappedKey(m, fields[j]))
    ensures i == |fields| <==> AllSupplied(fields, fact, m)
  {
    if fields == [] then 0
    else if fields[0] != "operator" && !Supplies(fact, MappedKey(m, fields[0])) then 0
    else
      var i := FirstUnsupplied(fields[1..], fact, m);
      assert forall f :: f in fields ==> f == fields[0] || f in fields[1..];
      1 + i
  }

  /** Statistics that only the warnings list distinguishes. */
  predicate SameCounters(a: Stats, b: Stats) {
    a.levelsProcessed == b.levelsProcessed && a.factsProcessed == b.factsProcessed
    && a.factsSkipped == b.factsSkipped && a.fieldMappings == b.fieldMappings
  }

  /** The warnings the essential-field loop logs for a fact, when the type is
      read from `typeHolder`: a missing operator the table cannot supply (if
      the loop gets that far), then the first missing field. */
  function EssentialWarnings(fields: seq<string>, fact: Obj, m: FieldMapping, typeHolder: Obj, ctx: LevelLabel)
    : seq<Warning>
  {
    var i := FirstUnsupplied(fields, fact, m);
    (if "operator" in fields[..i] && OperatorFor(fact, m, typeHolder).1 then [NoOperator(ctx, FactIndexLabel(fact))] else [])
    + (if i < |fields| then [MissingEssential(ctx, FactIndexLabel(fact), fields[i])] else [])
  }

  /** The essential-field loop of `map_fact`. `typeHolder` says where the
      operator derivation reads `type` from: None is the record being built,
      as the source does; Some(o) reads it from o. */
  function MapEssentials(typeHolder: Option<Obj>, fields: seq<string>, fact: Obj, m: FieldMapping,
                         target: Obj, ctx: LevelLabel, st: Stats): (r: (Option<Obj>, Stats))
    ensures SameCounters(r.1, st)
    decreases |fields|
  {
    if fields == [] then (Some(target), st)
    else
      var f := fields[0];
      if f == "operator" then
        var (v, failed) := OperatorFor(fact, m, if typeHolder.Some? then typeHolder.value else target);
        var st' := if failed then st.(warnings := st.warnings + [NoOperator(ctx, FactIndexLabel(fact))]) else st;
        MapEssentials(typeHolder, fields[1..], fact, m, target + [(f, v)], ctx, st')
      else
        var k := MappedKey(m, f);
        if Supplies(fact, k) then
          MapEssentials(typeHolder, fields[1..], fact, m, target + [(f, Get(fact, k.value))], ctx, st)
        else
          (None, st.(warnings := st.warnings + [MissingEssential(ctx, FactIndexLabel(fact), f)]))
  }

  lemma AppendStep(a: seq<string>, fields: seq<string>)
    requires |fields| > 0
    ensures a + [fields[0]] + fields[1..] == a + fields
  {
    assert fields == [fields[0]] + fields[1..];
  }

  /** The rest of a duplicate-free list is duplicate-free and misses its head. */
  lemma TailFacts(fields: seq<string>)
    requires |fields| > 0 && NoDuplicates(fields)
    ensures NoDuplicates(fields[1..])
    ensures forall g :: g in fields[1..] ==> g != fields[0] && g in fields
  {
    forall g | g in fields[1..] ensures g != fields[0] && g in fields {
      var j :| 0 <= j < |fields[1..]| && fields[1..][j] == g;
      assert fields[j + 1] == g;
    }
    forall i, j | 0 <= i < j < |fields[1..]| ensures fields[1..][i] != fields[1..][j] {
      assert fields[1..][i] == fields[i + 1] && fields[1..][j] == fields[j + 1];
    }
  }

  /** A fact survives the essential-field loop exactly when every
      non-operator field is found; the record then has the loop's fields
      appended, each holding the value found under its mapped key. */
  lemma {:induction false} EssentialsRecord(typeHolder: Option<Obj>, fields: seq<string>, fact: Obj, m: FieldMapping,
                                          target: Obj, ctx: LevelLabel, st: Stats)
    requires NoDuplicates(fields)
    requires forall f :: f in fields ==> !Has(target, f)
    ensures var r := MapEssentials(typeHolder, fields, fact, m, target, ctx, st).0;
      && (r.Some? <==> AllSupplied(fields, fact, m))
      && (r.Some? ==> Keys(r.value) == Keys(target) + fields)
      && (r.Some? ==> forall k :: Has(target, k) ==> Get(r.value, k) == Get(target, k))
      && (r.Some? ==> forall f :: f in fields && f != "operator" ==> Get(r.value, f) == Get(fact, MappedKey(m, f).value))
      && (r.Some? && typeHolder.Some? && "operator" in fields ==> Get(r.value, "operator") == OperatorFor(fact, m, typeHolder.value).0)
    decreases |fields|
  {
    if fields != [] {
      var f := fields[0];
      TailFacts(fields);
      var v: Json;
      var st': Stats;
      var proceed: bool;
      if f == "operator" {
        var (v0, failed) := OperatorFor(fact, m, if typeHolder.Some? then typeHolder.value else target);
        v := v0;
        st' := if failed then st.(warnings := st.warnings + [NoOperator(ctx, FactIndexLabel(fact))]) else st;
        proceed := true;
      } else {
        var k := MappedKey(m, f);
        proceed := Supplies(fact, k);
        st' := st;
        v := if proceed then Get(fact, k.value) else JNull;
      }
      if proceed {
        SetFresh(target, f, v);
        var target' := target + [(f, v)];
        EssentialsRecord(typeHolder, fields[1..], fact, m, target', ctx, st');
        var r := MapEssentials(typeHolder, fields[1..], fact, m, target', ctx, st').0;
        assert MapEssentials(typeHolder, fields, fact, m, target, ctx, st).0 == r;
        AppendStep(Keys(target), fields);
        assert AllSupplied(fields, fact, m) <==> (f == "operator" || Supplies(fact, MappedKey(m, f))) && AllSupplied(fields[1..], fact, m);
      }
    }
  }

  /** The essential-field loop only ever appends to the warnings. */
  lemma {:induction false} EssentialsWarningsPrefix(typeHolder: Option<Obj>, fields: seq<string>, fact: Obj,
                                                  m: FieldMapping, target: Obj, ctx: LevelLabel, st: Stats)
    ensures var w := MapEssentials(typeHolder, fields, fact, m, target, ctx, st).1.warnings;
      |w| >= |st.warnings| && w[..|st.warnings|] == st.warnings
    decreases |fields|
  {
    if fields != [] {
      var f := fields[0];
      if f == "operator" {
        var (v, failed) := OperatorFor(fact, m, if typeHolder.Some? then typeHolder.value else target);
        var st' := if failed then st.(warnings := st.warnings + [NoOperator(ctx, FactIndexLabel(fact))]) else st;
        EssentialsWarningsPrefix(typeHolder, fields[1..], fact, m, target + [(f, v)], ctx, st');
      } else {
        var k := MappedKey(m, f);
        if Supplies(fact, k) {
          EssentialsWarningsPrefix(typeHolder, fields[1..], fact, m, target + [(f, Get(fact, k.value))], ctx, st);
        }
      }
    }
  }

  lemma SliceStep(fields: seq<string>, i: nat)
    requires i < |fields|
    ensures fields[..1 + i] == [fields[0]] + fields[1..][..i]
    ensures i + 1 < |fields| ==> fields[1..][i] == fields[i + 1]
  {
  }

  /** Passing the operator: its warning, if any, comes first. */
  lemma WarningsStepOperator(holder: Obj, fields: seq<string>, fact: Obj, m: FieldMapping, ctx: LevelLabel)
    requires |fields| > 0 && fields[0] == "operator" && NoDuplicates(fields)
    ensures EssentialWarnings(fields, fact, m, holder, ctx)
      == (if OperatorFor(fact, m, holder).1 then [NoOperator(ctx, FactIndexLabel(fact))] else [])
         + EssentialWarnings(fields[1..], fact, m, holder, ctx)
  {
    TailFacts(fields);
    var i := FirstUnsupplied(fields[1..], fact, m);
    assert FirstUnsupplied(fields, fact, m) == 1 + i;
    SliceStep(fields, i);
    assert "operator" !in fields[1..][..i];
  }

  /** Passing a field that is found adds no warning of its own. */
  lemma WarningsStepFound(holder: Obj, fields: seq<string>, fact: Obj, m: FieldMapping, ctx: LevelLabel)
    requires |fields| > 0 && fields[0] != "operator" && Supplies(fact, MappedKey(m, fields[0]))
    ensures EssentialWarnings(fields, fact, m, holder, ctx) == EssentialWarnings(fields[1..], fact, m, holder, ctx)
  {
    var i := FirstUnsupplied(fields[1..], fact, m);
    assert FirstUnsupplied(fields, fact, m) == 1 + i;
    SliceStep(fields, i);
  }

  /** With the type read from a fixed record, the loop appends exactly
      EssentialWarnings. */
  lemma {:induction false} EssentialsWarningsExact(holder: Obj, fields: seq<string>, fact: Obj,
                                                 m: FieldMapping, target: Obj, ctx: LevelLabel, st: Stats)
    requires NoDuplicates(fields)
    ensures MapEssentials(Some(holder), fields, fact, m, target, ctx, st).1.warnings
      == st.warnings + EssentialWarnings(fields, fact, m, holder, ctx)
    decreases |fields|
  {
    if fields != [] {
      var f := fields[0];
      TailFacts(fields);
      if f == "operator" {
        var (v, failed) := OperatorFor(fact, m, holder);
        var w := if failed then [NoOperator(ctx, FactIndexLabel(fact))] else [];
        var st' := st.(warnings := st.warnings + w);
        assert st' == if failed then st.(warnings := st.warnings + [NoOperator(ctx, FactIndexLabel(fact))]) else st;
        EssentialsWarningsExact(holder, fields[1..], fact, m, target + [(f, v)], ctx, st');
        WarningsStepOperator(holder, fields, fact, m, ctx);
        AppendAfter(st.warnings, w, EssentialWarnings(fields[1..], fact, m, holder, ctx), st'.warnings);
      } else {
        var k := MappedKey(m, f);
        if Supplies(fact, k) {
          EssentialsWarningsExact(holder, fields[1..], fact, m, target + [(f, Get(fact, k.value))], ctx, st);
          WarningsStepFound(holder, fields, fact, m, ctx);
        } else {
          assert FirstUnsupplied(fields, fact, m) == 0;
          assert fields[..0] == [];
        }
      }
    }
  }

  /** Where an optional field's value comes from: the fact's own key of that
      name, else the mapped alias, else nowhere (the field is left out). */
  function OptionalSource(fact: Obj, m: FieldMapping, o: string): (v: Option<Json>)
    ensures Has(fact, o) ==> v == Some(Get(fact, o))
    ensures v.Some? && !Has(fact, o) ==> o in m && Supplies(fact, m[o]) && v.value == Get(fact, m[o].value)
    ensures v.None? ==> !Has(fact, o) && !(o in m && Supplies(fact, m[o]))
  {
    if Has(fact, o) then Some(Get(fact, o))
    else if o in m && m[o].Some? && Has(fact, m[o].value) then Some(Get(fact, m[o].value))
    else None
  }

  /** The optional-field loop of `map_fact`. */
  function CopyOptional(opt: seq<string>, fact: Obj, m: FieldMapping, target: Obj): (r: Obj)
  {
    if opt == [] then target
    else
      var src := OptionalSource(fact, m, opt[0]);
      CopyOptional(opt[1..], fact, m, if src.Some? then Set(target, opt[0], src.value) else target)
  }

  /** The optional loop keeps the record's keys in front, adds exactly the
      selected fields that have a source, copies their values unchanged and
      leaves every other value alone. */
  lemma {:induction false} CopyOptionalRecord(opt: seq<string>, fact: Obj, m: FieldMapping, target: Obj)
    ensures var r := CopyOptional(opt, fact, m, target);
      && |Keys(r)| >= |Keys(target)| && Keys(r)[..|Keys(target)|] == Keys(target)
      && (forall k :: Has(r, k) <==> Has(target, k) || (k in opt && OptionalSource(fact, m, k).Some?))
      && (forall k :: k in opt && OptionalSource(fact, m, k).Some? ==> Get(r, k) == OptionalSource(fact, m, k).value)
      && (forall k :: k !in opt && Has(target, k) ==> Get(r, k) == Get(target, k))
      && (DistinctKeys(target) ==> DistinctKeys(r))
  {
    if opt != [] {
      var o := opt[0];
      var src := OptionalSource(fact, m, o);
      var target' := if src.Some? then Set(target, o, src.value) else target;
      if src.Some? { SetKeepsDistinctIf(target, o, src.value); }
      CopyOptionalRecord(opt[1..], fact, m, target');
      var r := CopyOptional(opt[1..], fact, m, target');
      assert CopyOptional(opt, fact, m, target) == r;
      assert forall k :: k in opt <==> k == o || k in opt[1..];
      assert Keys(r)[..|Keys(target)|] == Keys(r)[..|Keys(target')|][..|Keys(target)|];
    }
  }

  lemma SetKeepsDistinctIf(o: Obj, k: string, v: Json)
    ensures DistinctKeys(o) ==> DistinctKeys(Set(o, k, v))
  {
    if DistinctKeys(o) { SetKeepsDistinct(o, k, v); }
  }

  /** `map_fact` with the type read from `typeHolder` (see MapEssentials). */
  function MapFactVia(typeHolder: Option<Obj>, fact: Obj, m: FieldMapping, opt: seq<string>,
                      ctx: LevelLabel, st: Stats): (Option<Obj>, Stats)
  {
    EssentialFieldsShape();
    Complete(MapEssentials(typeHolder, EssentialFactFields, fact, m, [], ctx, st), fact, m, opt)
  }

  /** The end of `map_fact` once the essential loop has run: a rejected fact
      stops there; an accepted one gets its optional fields and is counted. */
  function Complete(ess: (Option<Obj>, Stats), fact: Obj, m: FieldMapping, opt: seq<string>): (Option<Obj>, Stats)
  {
    match ess.0
    case None => ess
    case Some(t) => (Some(CopyOptional(opt, fact, m, t)), ess.1.(factsProcessed := ess.1.factsProcessed + 1))
  }

  /** `map_fact` as written: the operator fallback reads `type` from the
      target record, which at that point holds only `index` and `operands`. */
  function MapFactAsWritten(fact: Obj, m: FieldMapping, opt: seq<string>, ctx: LevelLabel, st: Stats)
    : (Option<Obj>, Stats)
  {
    MapFactVia(None, fact, m, opt, ctx, st)
  }

  /** `map_fact` with the operator fallback reading the source fact's `type`. */
  function MapFact(fact: Obj, m: FieldMapping, opt: seq<string>, ctx: LevelLabel, st: Stats): (Option<Obj>, Stats)
  {
    MapFactVia(Some(fact), fact, m, opt, ctx, st)
  }

  /** The two readings of `map_fact`'s operator fallback: as written, where
      `type` is looked up in the record under construction, and corrected,
      where it is looked up in the source fact. */
  datatype Variant = AsWritten | Corrected

  /** The record the fallback reads `type` from. As written that record
      never holds `type`, which is the same as reading an empty record. */
  function TypeHolder(v: Variant, fact: Obj): Obj {
    if v == AsWritten then [] else fact
  }

  /** `map_fact` in either reading. */
  function MapFactOf(v: Variant, fact: Obj, m: FieldMapping, opt: seq<string>, ctx: LevelLabel, st: Stats)
    : (r: (Option<Obj>, Stats))
    ensures v == AsWritten ==> r == MapFactAsWritten(fact, m, opt, ctx, st)
    ensures v == Corrected ==> r == MapFact(fact, m, opt, ctx, st)
  {
    AsWrittenTypeless(fact, m, opt, ctx, st);
    MapFactVia(Some(TypeHolder(v, fact)), fact, m, opt, ctx, st)
  }

  /** The required fields are the essential ones other than `operator`. */
  lemma AllSuppliedRequired(fact: Obj, m: FieldMapping)
    ensures AllSupplied(EssentialFactFields, fact, m)
      <==> forall f :: f in RequiredFactFields ==> Supplies(fact, MappedKey(m, f))
  {
  }

  /** A fact is rejected exactly when a required field's mapped key is
      missing; only an accepted fact is counted, and no other counter moves. */
  lemma MapFactOutcome(v: Variant, fact: Obj, m: FieldMapping, opt: seq<string>, ctx: LevelLabel, st: Stats)
    ensures var r := MapFactOf(v, fact, m, opt, ctx, st);
      && (r.0.None? <==> exists f :: f in RequiredFactFields && !Supplies(fact, MappedKey(m, f)))
      && r.1.factsProcessed == st.factsProcessed + (if r.0.Some? then 1 else 0)
      && r.1.levelsProcessed == st.levelsProcessed && r.1.factsSkipped == st.factsSkipped
      && r.1.fieldMappings == st.fieldMappings
  {
    EssentialsRecord(Some(TypeHolder(v, fact)), EssentialFactFields, fact, m, [], ctx, st);
    AllSuppliedRequired(fact, m);
  }

  /** The warnings logged for a fact: a missing operator the table cannot
      supply (unless the fact is rejected before `operator` is reached),
      then the first missing required field. */
  lemma MapFactWarnings(v: Variant, fact: Obj, m: FieldMapping, opt: seq<string>, ctx: LevelLabel, st: Stats)
    ensures MapFactOf(v, fact, m, opt, ctx, st).1.warnings
      == st.warnings + EssentialWarnings(EssentialFactFields, fact, m, TypeHolder(v, fact), ctx)
  {
    EssentialsWarningsExact(TypeHolder(v, fact), EssentialFactFields, fact, m, [], ctx, st);
  }

  /** The keys of the record the essential loop builds for an accepted fact. */
  lemma EssentialKeysOf(holder: Obj, fact: Obj, m: FieldMapping, ctx: LevelLabel, st: Stats)
    requires MapEssentials(Some(holder), EssentialFactFields, fact, m, [], ctx, st).0.Some?
    ensures var e := MapEssentials(Some(holder), EssentialFactFields, fact, m, [], ctx, st).0.value;
      && Keys(e) == EssentialFactFields
      && DistinctKeys(e)
      && (forall k :: Has(e, k) <==> k in EssentialFactFields)
  {
    EssentialsRecord(Some(holder), EssentialFactFields, fact, m, [], ctx, st);
  }

  /** The values of the record the essential loop builds for an accepted fact. */
  lemma EssentialValuesOf(holder: Obj, fact: Obj, m: FieldMapping, ctx: LevelLabel, st: Stats)
    requires MapEssentials(Some(holder), EssentialFactFields, fact, m, [], ctx, st).0.Some?
    ensures var e := MapEssentials(Some(holder), EssentialFactFields, fact, m, [], ctx, st).0.value;
      && (forall f :: f in RequiredFactFields ==>
            Supplies(fact, MappedKey(m, f)) && Has(e, f) && Get(e, f) == Get(fact, MappedKey(m, f).value))
      && Has(e, "operator") && Get(e, "operator") == OperatorFor(fact, m, holder).0
  {
    var e := MapEssentials(Some(holder), EssentialFactFields, fact, m, [], ctx, st).0.value;
    EssentialsRecord(Some(holder), EssentialFactFields, fact, m, [], ctx, st);
    RequiredAreEssential();
    assert AllSupplied(EssentialFactFields, fact, m);
    forall f | f in RequiredFactFields
      ensures Supplies(fact, MappedKey(m, f)) && Has(e, f) && Get(e, f) == Get(fact, MappedKey(m, f).value)
    {
      assert f in EssentialFactFields && f != "operator";
    }
    assert Has(e, "operator");
  }

  lemma RequiredAreEssential()
    ensures forall f :: f in RequiredFactFields ==> f in EssentialFactFields && f != "operator"
    ensures "operator" in EssentialFactFields
  {
  }

  /** An accepted fact holds the five essential keys first, in declared
      order, then exactly the selected optional fields that have a source;
      its keys are distinct. */
  lemma MapFactKeys(v: Variant, fact: Obj, m: FieldMapping, opt: seq<string>, ctx: LevelLabel, st: Stats)
    requires MapFactOf(v, fact, m, opt, ctx, st).0.Some?
    ensures var t := MapFactOf(v, fact, m, opt, ctx, st).0.value;
      && |Keys(t)| >= 5 && Keys(t)[..5] == EssentialFactFields
      && DistinctKeys(t)
      && (forall k :: Has(t, k) <==> k in EssentialFactFields || (k in opt && OptionalSource(fact, m, k).Some?))
  {
    EssentialFieldsShape();
    var h := TypeHolder(v, fact);
    var e := MapEssentials(Some(h), EssentialFactFields, fact, m, [], ctx, st).0.value;
    EssentialKeysOf(h, fact, m, ctx, st);
    assert MapFactOf(v, fact, m, opt, ctx, st).0.value == CopyOptional(opt, fact, m, e);
    CopyOptionalRecord(opt, fact, m, e);
  }

  /** In an accepted fact the required values come from their mapped keys,
      the operator from OperatorFor (unless an optional field of that name
      overrides it), and optional values are copied unchanged. */
  lemma MapFactValues(v: Variant, fact: Obj, m: FieldMapping, opt: seq<string>, ctx: LevelLabel, st: Stats)
    requires MapFactOf(v, fact, m, opt, ctx, st).0.Some?
    ensures var t := MapFactOf(v, fact, m, opt, ctx, st).0.value;
      && (forall f :: f in RequiredFactFields ==> Supplies(fact, MappedKey(m, f)))
      && (forall f :: f in RequiredFactFields && f !in opt ==>
            Has(t, f) && Get(t, f) == Get(fact, MappedKey(m, f).value))
      && ("operator" !in opt ==> Has(t, "operator") && Get(t, "operator") == OperatorFor(fact, m, TypeHolder(v, fact)).0)
      && (forall k :: k in opt && OptionalSource(fact, m, k).Some? ==>
            Has(t, k) && Get(t, k) == OptionalSource(fact, m, k).value)
  {
    EssentialFieldsShape();
    var h := TypeHolder(v, fact);
    var e := MapEssentials(Some(h), EssentialFactFields, fact, m, [], ctx, st).0.value;
    EssentialValuesOf(h, fact, m, ctx, st);
    assert MapFactOf(v, fact, m, opt, ctx, st).0.value == CopyOptional(opt, fact, m, e);
    CopyOptionalRecord(opt, fact, m, e);
  }

  /** The record `map_fact` builds depends on neither the statistics nor the
      level it is reported under. */
  lemma {:induction false} EssentialsIndependent(typeHolder: Option<Obj>, fields: seq<string>, fact: Obj, m: FieldMapping,
                                               target: Obj, ctx: LevelLabel, st: Stats, ctx': LevelLabel, st': Stats)
    ensures MapEssentials(typeHolder, fields, fact, m, target, ctx, st).0
         == MapEssentials(typeHolder, fields, fact, m, target, ctx', st').0
    decreases |fields|
  {
    if fields != [] {
      var f := fields[0];
      if f == "operator" {
        var (v, failed) := OperatorFor(fact, m, if typeHolder.Some? then typeHolder.value else target);
        var s1 := if failed then st.(warnings := st.warnings + [NoOperator(ctx, FactIndexLabel(fact))]) else st;
        var s2 := if failed then st'.(warnings := st'.warnings + [NoOperator(ctx', FactIndexLabel(fact))]) else st';
        EssentialsIndependent(typeHolder, fields[1..], fact, m, target + [(f, v)], ctx, s1, ctx', s2);
      } else {
        var k := MappedKey(m, f);
        if Supplies(fact, k) {
          EssentialsIndependent(typeHolder, fields[1..], fact, m, target + [(f, Get(fact, k.value))], ctx, st, ctx', st');
        }
      }
    }
  }

  lemma MapFactIndependent(v: Variant, fact: Obj, m: FieldMapping, opt: seq<string>, ctx: LevelLabel, st: Stats,
                           ctx': LevelLabel, st': Stats)
    ensures MapFactOf(v, fact, m, opt, ctx, st).0 == MapFactOf(v, fact, m, opt, ctx', st').0
  {
    EssentialsIndependent(Some(TypeHolder(v, fact)), EssentialFactFields, fact, m, [], ctx, st, ctx', st');
  }

  /** No type to read: the record under construction never holds `type`, so
      the as-written loop behaves as if every fact's type were absent. */
  lemma {:induction false} AsWrittenReadsNoType(fields: seq<string>, fact: Obj, m: FieldMapping,
                                              target: Obj, ctx: LevelLabel, st: Stats)
    requires NoDuplicates(fields)
    requires forall f :: f in fields ==> !Has(target, f)
    requires "type" !in fields && !Has(target, "type")
    ensures MapEssentials(None, fields, fact, m, target, ctx, st)
         == MapEssentials(Some([]), fields, fact, m, target, ctx, st)
    decreases |fields|
  {
    if fields != [] {
      var f := fields[0];
      TailFacts(fields);
      if f == "operator" {
        assert TypeCode(target) == "" == TypeCode([]);
        var (v, failed) := OperatorFor(fact, m, target);
        var st' := if failed then st.(warnings := st.warnings + [NoOperator(ctx, FactIndexLabel(fact))]) else st;
        SetFresh(target, f, v);
        AsWrittenReadsNoType(fields[1..], fact, m, target + [(f, v)], ctx, st');
      } else {
        var k := MappedKey(m, f);
        if Supplies(fact, k) {
          SetFresh(target, f, Get(fact, k.value));
          AsWrittenReadsNoType(fields[1..], fact, m, target + [(f, Get(fact, k.value))], ctx, st);
        }
      }
    }
  }

  /** A fact whose operator must be derived: neither its mapped operator key
      nor a literal `operator` key is present. */
  predicate NeedsDerivedOperator(fact: Obj, m: FieldMapping) {
    !Has(fact, "operator") && !("operator" in m && Supplies(fact, m["operator"]))
  }

  /** With no operator to copy, OperatorFor applies the table to the type
      read from the holder and flags an unknown type. */
  lemma DerivedOperator(fact: Obj, m: FieldMapping, holder: Obj)
    requires NeedsDerivedOperator(fact, m)
    ensures OperatorFor(fact, m, holder)
      == (JStr(AutoGenerateOperator(TypeCode(holder))), TypeCode(holder) !in TypeToOperator)
  {
  }

  /** An accepted fact logs at most the operator warning. */
  lemma WarningsOfAccepted(fact: Obj, m: FieldMapping, holder: Obj, ctx: LevelLabel)
    requires AllSupplied(EssentialFactFields, fact, m)
    ensures EssentialWarnings(EssentialFactFields, fact, m, holder, ctx)
      == if OperatorFor(fact, m, holder).1 then [NoOperator(ctx, FactIndexLabel(fact))] else []
  {
    var fields := EssentialFactFields;
    assert FirstUnsupplied(fields, fact, m) == 5;
    assert fields[..5] == fields;
    assert "operator" in fields;
  }

  /** The operator of an accepted fact when `type` is read from `holder`,
      given that the operator must be derived. */
  lemma ViaDerivedOperatorValue(holder: Obj, fact: Obj, m: FieldMapping, opt: seq<string>, ctx: LevelLabel, st: Stats)
    requires NeedsDerivedOperator(fact, m) && "operator" !in opt
    ensures var r := MapFactVia(Some(holder), fact, m, opt, ctx, st);
      r.0.Some? ==> Has(r.0.value, "operator")
                    && Get(r.0.value, "operator") == JStr(AutoGenerateOperator(TypeCode(holder)))
  {
    var fields := EssentialFactFields;
    var (ess, st1) := MapEssentials(Some(holder), fields, fact, m, [], ctx, st);
    EssentialsRecord(Some(holder), fields, fact, m, [], ctx, st);
    if ess.Some? {
      var t := ess.value;
      DerivedOperator(fact, m, holder);
      assert fields[2] == "operator";
      assert Has(t, "operator") && Get(t, "operator") == JStr(AutoGenerateOperator(TypeCode(holder)));
      CopyOptionalRecord(opt, fact, m, t);
      assert MapFactVia(Some(holder), fact, m, opt, ctx, st).0 == Some(CopyOptional(opt, fact, m, t));
    }
  }

  /** The warnings of an accepted fact when `type` is read from `holder`,
      given that the operator must be derived. */
  lemma ViaDerivedOperatorWarnings(holder: Obj, fact: Obj, m: FieldMapping, opt: seq<string>, ctx: LevelLabel, st: Stats)
    requires NeedsDerivedOperator(fact, m)
    ensures var r := MapFactVia(Some(holder), fact, m, opt, ctx, st);
      r.0.Some? ==> r.1.warnings == st.warnings + (if TypeCode(holder) in TypeToOperator then []
                                                   else [NoOperator(ctx, FactIndexLabel(fact))])
  {
    var fields := EssentialFactFields;
    var (ess, st1) := MapEssentials(Some(holder), fields, fact, m, [], ctx, st);
    EssentialsRecord(Some(holder), fields, fact, m, [], ctx, st);
    if ess.Some? {
      EssentialsWarningsExact(holder, fields, fact, m, [], ctx, st);
      WarningsOfAccepted(fact, m, holder, ctx);
      DerivedOperator(fact, m, holder);
    }
  }

  /** The operator and warnings of an accepted fact when `type` is read from
      `holder`, given that the operator must be derived. */
  lemma ViaDerivedOperator(holder: Obj, fact: Obj, m: FieldMapping, opt: seq<string>, ctx: LevelLabel, st: Stats)
    requires NeedsDerivedOperator(fact, m) && "operator" !in opt
    ensures var r := MapFactVia(Some(holder), fact, m, opt, ctx, st);
      r.0.Some? ==> Has(r.0.value, "operator")
                    && Get(r.0.value, "operator") == JStr(AutoGenerateOperator(TypeCode(holder)))
                    && r.1.warnings == st.warnings + (if TypeCode(holder) in TypeToOperator then []
                                                      else [NoOperator(ctx, FactIndexLabel(fact))])
  {
    ViaDerivedOperatorValue(holder, fact, m, opt, ctx, st);
    ViaDerivedOperatorWarnings(holder, fact, m, opt, ctx, st);
  }


  lemma AsWrittenTypeless(fact: Obj, m: FieldMapping, opt: seq<string>, ctx: LevelLabel, st: Stats)
    ensures MapFactAsWritten(fact, m, opt, ctx, st) == MapFactVia(Some([]), fact, m, opt, ctx, st)
  {
    EssentialFieldsShape();
    AsWrittenReadsNoType(EssentialFactFields, fact, m, [], ctx, st);
    ViaCongruence(None, Some([]), fact, m, opt, ctx, st);
  }

  lemma ViaCongruence(h1: Option<Obj>, h2: Option<Obj>, fact: Obj, m: FieldMapping, opt: seq<string>,
                      ctx: LevelLabel, st: Stats)
    requires MapEssentials(h1, EssentialFactFields, fact, m, [], ctx, st)
          == MapEssentials(h2, EssentialFactFields, fact, m, [], ctx, st)
    ensures MapFactVia(h1, fact, m, opt, ctx, st) == MapFactVia(h2, fact, m, opt, ctx, st)
  {
  }

  lemma EssentialFieldsShape()
    ensures NoDuplicates(EssentialFactFields) && "type" !in EssentialFactFields
    ensures forall f :: f in EssentialFactFields ==> !Has([], f)
  {
  }

  /** A record without `type` yields the empty type code, which the table
      does not list. */
  lemma NoTypeNoOperator()
    ensures TypeCode([]) == "" && "" !in TypeToOperator && AutoGenerateOperator("") == ""
  {
  }

  /** As written, a derived operator is always the empty string and is always
      reported as missing, whatever the fact's type. */
  lemma MapFactAsWrittenLosesOperator(fact: Obj, m: FieldMapping, opt: seq<string>, ctx: LevelLabel, st: Stats)
    requires NeedsDerivedOperator(fact, m) && "operator" !in opt
    ensures var r := MapFactAsWritten(fact, m, opt, ctx, st);
      r.0.Some? ==> Has(r.0.value, "operator") && Get(r.0.value, "operator") == JStr("")
                    && r.1.warnings == st.warnings + [NoOperator(ctx, FactIndexLabel(fact))]
  {
    AsWrittenTypeless(fact, m, opt, ctx, st);
    ViaDerivedOperator([], fact, m, opt, ctx, st);
    NoTypeNoOperator();
  }

  /** Corrected, a derived operator is the table's entry for the fact's own
      type, and the warning is logged only when the table has none. */
  lemma MapFactDerivesOperator(fact: Obj, m: FieldMapping, opt: seq<string>, ctx: LevelLabel, st: Stats)
    requires NeedsDerivedOperator(fact, m) && "operator" !in opt
    ensures var r := MapFact(fact, m, opt, ctx, st);
      r.0.Some? ==> Has(r.0.value, "operator")
                    && Get(r.0.value, "operator") == JStr(AutoGenerateOperator(TypeCode(fact)))
                    && r.1.warnings == st.warnings + (if TypeCode(fact) in TypeToOperator then []
                                                      else [NoOperator(ctx, FactIndexLabel(fact))])
  {
    ViaDerivedOperator(fact, fact, m, opt, ctx, st);
  }

  /** Wherever `type` is read from, a fact is accepted exactly when every
      required field is found. */
  lemma ViaAccepts(holder: Option<Obj>, fact: Obj, m: FieldMapping, opt: seq<string>, ctx: LevelLabel, st: Stats)
    ensures MapFactVia(holder, fact, m, opt, ctx, st).0.Some? <==> AllSupplied(EssentialFactFields, fact, m)
  {
    EssentialFieldsShape();
    EssentialsRecord(holder, EssentialFactFields, fact, m, [], ctx, st);
  }

  /** The addition fact of the documented example, with no operator. */
  const AdditionFact: Obj := [
    ("index", JInt(0)), ("operands", JArr([JInt(2), JInt(3)])), ("result", JInt(5)),
    ("expression", JStr("2+3")), ("type", JStr("addition"))]

  lemma AdditionFactShape()
    ensures NeedsDerivedOperator(AdditionFact, map[])
    ensures AllSupplied(EssentialFactFields, AdditionFact, map[])
    ensures TypeCode(AdditionFact) == "addition"
    ensures FactIndexLabel(AdditionFact) == Some(JInt(0))
  {
    assert Keys(AdditionFact) == ["index", "operands", "result", "expression", "type"];
    RequiredAreEssential();
  }

  /** The discrepancy on that fact, as written: the operator comes out empty
      and a missing-operator warning is logged. */
  lemma AdditionFactAsWritten()
    ensures var w := MapFactAsWritten(AdditionFact, map[], [], Numbered(0), InitialStats);
      && w.0.Some? && Has(w.0.value, "operator") && Get(w.0.value, "operator") == JStr("")
      && w.1.warnings == [NoOperator(Numbered(0), Some(JInt(0)))]
  {
    AdditionFactShape();
    ViaAccepts(None, AdditionFact, map[], [], Numbered(0), InitialStats);
    MapFactAsWrittenLosesOperator(AdditionFact, map[], [], Numbered(0), InitialStats);
  }

  /** The same fact, corrected: the operator is "+" and nothing is logged. */
  lemma AdditionFactCorrected()
    ensures var c := MapFact(AdditionFact, map[], [], Numbered(0), InitialStats);
      && c.0.Some? && Has(c.0.value, "operator") && Get(c.0.value, "operator") == JStr("+")
      && c.1.warnings == []
  {
    AdditionFactShape();
    ViaAccepts(Some(AdditionFact), AdditionFact, map[], [], Numbered(0), InitialStats);
    MapFactDerivesOperator(AdditionFact, map[], [], Numbered(0), InitialStats);
  }
}
