/** Steps 2 and 3 of `convert_json`: the essential-field mappings for level
    and fact records, built from the sample record's keys, and the optional
    fields chosen for each. */
module Mapping {
  import opened Wrappers
  import opened Json
  import opened Similarity
  import opened Schema
  import opened Report
  import opened Prompts

  /** The `operator` entry of a fact mapping, which is never asked for. */
  predicate IsOperatorEntry(scope: Scope, f: string) {
    scope == FactScope && f == "operator"
  }

  /** Statistics equal but for the field-mapping log. */
  predicate SameButChoices(a: Stats, b: Stats) {
    a.levelsProcessed == b.levelsProcessed && a.factsProcessed == b.factsProcessed
    && a.factsSkipped == b.factsSkipped && a.warnings == b.warnings
  }

  /** The mapping loop over the essential fields: a field present in the
      sample maps to itself; `operator` in a fact mapping maps to itself or,
      when absent, to None; any other field goes to the chooser, whose answer
      is logged in `field_mappings`, and a decline (or an empty key, which
      `if mapped:` treats as one) aborts. */
  function MapFields(scope: Scope, fields: seq<string>, keys: seq<string>, sim: Scorer,
                     lines: Lines, m: FieldMapping, st: Stats): (r: Result<(FieldMapping, Lines, Stats), Failure>)
    ensures r.Err? ==> r.error == EndOfInput || r.error.Aborted?
    decreases |fields|
  {
    if fields == [] then Ok((m, lines, st))
    else
      var f := fields[0];
      if IsOperatorEntry(scope, f) then
        MapFields(scope, fields[1..], keys, sim, lines, m[f := if "operator" in keys then Some("operator") else None], st)
      else if f in keys then
        MapFields(scope, fields[1..], keys, sim, lines, m[f := Some(f)], st)
      else
        match PromptUserForField(f, keys, sim, lines)
        case Err(e) => Err(e)
        case Ok((choice, rest)) =>
          if choice.Some? && choice.value != "" then
            MapFields(scope, fields[1..], keys, sim, rest, m[f := choice],
                      st.(fieldMappings := st.fieldMappings + [FieldChoice(scope, f, choice.value)]))
          else
            Err(Aborted(FieldNotMapped(scope, f)))
  }

  /** The mapping a successful loop builds: every field gets an entry (other
      entries are kept); a field present in the sample maps to itself; every
      entry but the fact `operator` names a non-empty key of the sample; the
      fact `operator` entry is `operator` when present and None otherwise. */
  lemma {:induction false} MapFieldsMapping(scope: Scope, fields: seq<string>, keys: seq<string>, sim: Scorer,
                                          lines: Lines, m: FieldMapping, st: Stats)
    requires MapFields(scope, fields, keys, sim, lines, m, st).Ok?
    requires "" !in fields
    ensures var m' := MapFields(scope, fields, keys, sim, lines, m, st).value.0;
      && (forall f :: f in fields ==> f in m')
      && (forall f :: f in m && f !in fields ==> f in m' && m'[f] == m[f])
      && (forall f :: f in fields && f in keys && !IsOperatorEntry(scope, f) ==> m'[f] == Some(f))
      && (forall f :: f in fields && !IsOperatorEntry(scope, f) ==> m'[f].Some? && m'[f].value in keys && m'[f].value != "")
      && (scope == FactScope && "operator" in fields ==> m'["operator"] == if "operator" in keys then Some("operator") else None)
  {
    MapFieldsDomain(scope, fields, keys, sim, lines, m, st);
    MapFieldsValues(scope, fields, keys, sim, lines, m, st);
  }

  /** The loop gives every field an entry and keeps every other entry. */
  lemma MapFieldsDomain(scope: Scope, fields: seq<string>, keys: seq<string>, sim: Scorer,
                        lines: Lines, m: FieldMapping, st: Stats)
    requires MapFields(scope, fields, keys, sim, lines, m, st).Ok?
    ensures var m' := MapFields(scope, fields, keys, sim, lines, m, st).value.0;
      && (forall f :: f in fields ==> f in m')
      && (forall f :: f in m && f !in fields ==> f in m' && m'[f] == m[f])
  {
    var m' := MapFields(scope, fields, keys, sim, lines, m, st).value.0;
    forall g | g in fields || g in m
      ensures g in fields ==> g in m'
      ensures g in m && g !in fields ==> g in m' && m'[g] == m[g]
    {
      MapFieldEntry(scope, fields, keys, sim, lines, m, st, g);
    }
  }

  /** The loop's effect on one key: a field gets an entry, any other entry
      is kept. */
  lemma {:induction false} MapFieldEntry(scope: Scope, fields: seq<string>, keys: seq<string>, sim: Scorer,
                                       lines: Lines, m: FieldMapping, st: Stats, g: string)
    requires MapFields(scope, fields, keys, sim, lines, m, st).Ok?
    ensures var m' := MapFields(scope, fields, keys, sim, lines, m, st).value.0;
      && (g in fields ==> g in m')
      && (g in m && g !in fields ==> g in m' && m'[g] == m[g])
    decreases |fields|
  {
    if fields != [] {
      var f := fields[0];
      assert g in fields <==> g == f || g in fields[1..];
      if IsOperatorEntry(scope, f) {
        MapFieldEntry(scope, fields[1..], keys, sim, lines, m[f := if "operator" in keys then Some("operator") else None], st, g);
      } else if f in keys {
        MapFieldEntry(scope, fields[1..], keys, sim, lines, m[f := Some(f)], st, g);
      } else {
        var (choice, rest) := PromptUserForField(f, keys, sim, lines).value;
        var st1 := st.(fieldMappings := st.fieldMappings + [FieldChoice(scope, f, choice.value)]);
        MapFieldEntry(scope, fields[1..], keys, sim, rest, m[f := choice], st1, g);
      }
    }
  }

  /** The value the loop gives one field: the fact `operator` maps to
      itself when present and to None otherwise; any other field maps to a
      non-empty key of the sample, itself when the sample has it. */
  lemma {:induction false} MapFieldValue(scope: Scope, fields: seq<string>, keys: seq<string>, sim: Scorer,
                                       lines: Lines, m: FieldMapping, st: Stats, g: string)
    requires MapFields(scope, fields, keys, sim, lines, m, st).Ok?
    requires g in fields && g != ""
    ensures var m' := MapFields(scope, fields, keys, sim, lines, m, st).value.0;
      && g in m'
      && (IsOperatorEntry(scope, g) ==> m'[g] == if "operator" in keys then Some("operator") else None)
      && (!IsOperatorEntry(scope, g) ==> m'[g].Some? && m'[g].value in keys && m'[g].value != "")
      && (!IsOperatorEntry(scope, g) && g in keys ==> m'[g] == Some(g))
    decreases |fields|
  {
    var f := fields[0];
    var later := g in fields[1..];
    assert !later ==> g == f;
    if IsOperatorEntry(scope, f) {
      var m1 := m[f := if "operator" in keys then Some("operator") else None];
      if later { MapFieldValue(scope, fields[1..], keys, sim, lines, m1, st, g); }
      else { MapFieldEntry(scope, fields[1..], keys, sim, lines, m1, st, g); }
    } else if f in keys {
      var m1 := m[f := Some(f)];
      if later { MapFieldValue(scope, fields[1..], keys, sim, lines, m1, st, g); }
      else { MapFieldEntry(scope, fields[1..], keys, sim, lines, m1, st, g); }
    } else {
      var (choice, rest) := PromptUserForField(f, keys, sim, lines).value;
      var st1 := st.(fieldMappings := st.fieldMappings + [FieldChoice(scope, f, choice.value)]);
      if later { MapFieldValue(scope, fields[1..], keys, sim, rest, m[f := choice], st1, g); }
      else { MapFieldEntry(scope, fields[1..], keys, sim, rest, m[f := choice], st1, g); }
    }
  }

  /** The values the loop gives the fields. */
  lemma MapFieldsValues(scope: Scope, fields: seq<string>, keys: seq<string>, sim: Scorer,
                        lines: Lines, m: FieldMapping, st: Stats)
    requires MapFields(scope, fields, keys, sim, lines, m, st).Ok?
    requires "" !in fields
    ensures var m' := MapFields(scope, fields, keys, sim, lines, m, st).value.0;
      && (forall f :: f in fields && f in keys && !IsOperatorEntry(scope, f) ==> f in m' && m'[f] == Some(f))
      && (forall f :: f in fields && !IsOperatorEntry(scope, f) ==> f in m' && m'[f].Some? && m'[f].value in keys && m'[f].value != "")
      && (scope == FactScope && "operator" in fields ==> "operator" in m' && m'["operator"] == if "operator" in keys then Some("operator") else None)
  {
    forall g | g in fields {
      MapFieldValue(scope, fields, keys, sim, lines, m, st, g);
    }
  }

  /** A successful loop changes no counter or warning and only appends to
      `field_mappings`. */
  lemma {:induction false} MapFieldsStats(scope: Scope, fields: seq<string>, keys: seq<string>, sim: Scorer,
                                        lines: Lines, m: FieldMapping, st: Stats)
    requires MapFields(scope, fields, keys, sim, lines, m, st).Ok?
    ensures var st' := MapFields(scope, fields, keys, sim, lines, m, st).value.2;
      && SameButChoices(st', st)
      && |st'.fieldMappings| >= |st.fieldMappings|
      && st'.fieldMappings[..|st.fieldMappings|] == st.fieldMappings
    decreases |fields|
  {
    if fields != [] {
      var f := fields[0];
      if IsOperatorEntry(scope, f) {
        MapFieldsStats(scope, fields[1..], keys, sim, lines, m[f := if "operator" in keys then Some("operator") else None], st);
      } else if f in keys {
        MapFieldsStats(scope, fields[1..], keys, sim, lines, m[f := Some(f)], st);
      } else {
        var (choice, rest) := PromptUserForField(f, keys, sim, lines).value;
        var st1 := st.(fieldMappings := st.fieldMappings + [FieldChoice(scope, f, choice.value)]);
        MapFieldsStats(scope, fields[1..], keys, sim, rest, m[f := choice], st1);
        var w := MapFields(scope, fields[1..], keys, sim, rest, m[f := choice], st1).value.2.fieldMappings;
        assert w[..|st1.fieldMappings|][..|st.fieldMappings|] == st.fieldMappings;
      }
    }
  }

  /** The entries a successful loop logs: one per field it had to ask about,
      each naming a sample key. */
  lemma {:induction false} MapFieldsChoices(scope: Scope, fields: seq<string>, keys: seq<string>, sim: Scorer,
                                          lines: Lines, m: FieldMapping, st: Stats)
    requires MapFields(scope, fields, keys, sim, lines, m, st).Ok?
    ensures var w := MapFields(scope, fields, keys, sim, lines, m, st).value.2.fieldMappings;
      && |w| >= |st.fieldMappings|
      && (forall c :: c in w[|st.fieldMappings|..] ==>
            c.scope == scope && c.field in fields && c.field !in keys && c.source in keys)
    decreases |fields|, 1
  {
    if fields != [] {
      var f := fields[0];
      assert forall g :: g in fields[1..] ==> g in fields;
      if IsOperatorEntry(scope, f) {
        MapFieldsChoices(scope, fields[1..], keys, sim, lines, m[f := if "operator" in keys then Some("operator") else None], st);
      } else if f in keys {
        MapFieldsChoices(scope, fields[1..], keys, sim, lines, m[f := Some(f)], st);
      } else {
        MapFieldsChoicesAsked(scope, fields, keys, sim, lines, m, st);
      }
    }
  }

  /** The step of MapFieldsChoices where the chooser is asked for the first
      field: its answer is the first entry logged. */
  lemma {:induction false} MapFieldsChoicesAsked(scope: Scope, fields: seq<string>, keys: seq<string>, sim: Scorer,
                                               lines: Lines, m: FieldMapping, st: Stats)
    requires fields != [] && !IsOperatorEntry(scope, fields[0]) && fields[0] !in keys
    requires MapFields(scope, fields, keys, sim, lines, m, st).Ok?
    ensures var w := MapFields(scope, fields, keys, sim, lines, m, st).value.2.fieldMappings;
      && |w| >= |st.fieldMappings|
      && (forall c :: c in w[|st.fieldMappings|..] ==>
            c.scope == scope && c.field in fields && c.field !in keys && c.source in keys)
    decreases |fields|, 0
  {
    var f := fields[0];
    assert forall g :: g in fields[1..] ==> g in fields;
    var (choice, rest) := PromptUserForField(f, keys, sim, lines).value;
    var st1 := st.(fieldMappings := st.fieldMappings + [FieldChoice(scope, f, choice.value)]);
    MapFieldsChoices(scope, fields[1..], keys, sim, rest, m[f := choice], st1);
    MapFieldsStats(scope, fields[1..], keys, sim, rest, m[f := choice], st1);
    var w := MapFields(scope, fields[1..], keys, sim, rest, m[f := choice], st1).value.2.fieldMappings;
    assert w[|st.fieldMappings|] == st1.fieldMappings[|st.fieldMappings|];
    SuffixStep(w, |st.fieldMappings|);
  }

  lemma SuffixStep<T>(w: seq<T>, n: nat)
    requires n < |w|
    ensures forall c :: c in w[n..] ==> c == w[n] || c in w[n + 1..]
  {
    assert w[n..] == [w[n]] + w[n + 1..];
  }

  /** An abort names a field of this kind that the sample lacks and that the
      chooser declined; the fact `operator` never aborts. */
  lemma {:induction false} MapFieldsAbort(scope: Scope, fields: seq<string>, keys: seq<string>, sim: Scorer,
                                        lines: Lines, m: FieldMapping, st: Stats)
    requires MapFields(scope, fields, keys, sim, lines, m, st).Err?
    requires MapFields(scope, fields, keys, sim, lines, m, st).error.Aborted?
    ensures var e := MapFields(scope, fields, keys, sim, lines, m, st).error.reason;
      && e.FieldNotMapped? && e.scope == scope && e.field in fields && e.field !in keys
      && !IsOperatorEntry(scope, e.field)
    decreases |fields|
  {
    if fields != [] {
      var f := fields[0];
      assert forall g :: g in fields[1..] ==> g in fields;
      if IsOperatorEntry(scope, f) {
        MapFieldsAbort(scope, fields[1..], keys, sim, lines, m[f := if "operator" in keys then Some("operator") else None], st);
      } else if f in keys {
        MapFieldsAbort(scope, fields[1..], keys, sim, lines, m[f := Some(f)], st);
      } else {
        var (choice, rest) := PromptUserForField(f, keys, sim, lines).value;
        if choice.Some? && choice.value != "" {
          MapFieldsAbort(scope, fields[1..], keys, sim, rest, m[f := choice],
                         st.(fieldMappings := st.fieldMappings + [FieldChoice(scope, f, choice.value)]));
        }
      }
    }
  }

  /** The chooser, asked for `field`, answers and the answer is a decline:
      nothing picked, or an empty key, which `if mapped:` also rejects. */
  predicate Declines(field: string, keys: seq<string>, sim: Scorer, lines: Lines) {
    var r := PromptUserForField(field, keys, sim, lines);
    r.Ok? && (r.value.0.None? || r.value.0.value == "")
  }

  /** The converse of MapFieldsAbort: when every field before `fields[i]` is
      present in the sample (or is the fact `operator`), so that nothing has
      been asked yet, and `fields[i]` is missing and its chooser declines,
      the loop aborts naming `fields[i]`. */
  lemma MapFieldsDeclines(scope: Scope, fields: seq<string>, keys: seq<string>, sim: Scorer,
                          lines: Lines, m: FieldMapping, st: Stats, i: nat)
    requires i < |fields|
    requires forall j :: 0 <= j < i ==> fields[j] in keys || IsOperatorEntry(scope, fields[j])
    requires fields[i] !in keys && !IsOperatorEntry(scope, fields[i])
    requires Declines(fields[i], keys, sim, lines)
    ensures MapFields(scope, fields, keys, sim, lines, m, st) == Err(Aborted(FieldNotMapped(scope, fields[i])))
  {
    SkipUnasked(scope, fields, keys, sim, lines, m, st, i);
    DeclinedFirst(scope, fields[i..], keys, sim, lines, PresentEntries(scope, fields[..i], keys, m), st);
  }

  /** A field the loop maps without asking. */
  predicate Unasked(scope: Scope, f: string, keys: seq<string>) {
    f in keys || IsOperatorEntry(scope, f)
  }

  /** The entries the loop makes, without asking, for a run of such fields. */
  function PresentEntries(scope: Scope, pre: seq<string>, keys: seq<string>, m: FieldMapping): FieldMapping {
    if pre == [] then m else PresentEntries(scope, pre[1..], keys, PresentEntry(scope, pre[0], keys, m))
  }

  /** A leading run of fields the loop maps without asking reads no line and
      logs nothing: the loop goes on from the first field after it. */
  lemma {:induction false} SkipUnasked(scope: Scope, fields: seq<string>, keys: seq<string>, sim: Scorer,
                                     lines: Lines, m: FieldMapping, st: Stats, i: nat)
    requires i <= |fields|
    requires forall j :: 0 <= j < i ==> Unasked(scope, fields[j], keys)
    ensures MapFields(scope, fields, keys, sim, lines, m, st)
      == MapFields(scope, fields[i..], keys, sim, lines, PresentEntries(scope, fields[..i], keys, m), st)
    decreases i
  {
    if i == 0 {
      assert fields[0..] == fields;
    } else {
      UnaskedTail(scope, fields, keys, i);
      SkipUnasked(scope, fields[1..], keys, sim, lines, PresentEntry(scope, fields[0], keys, m), st, i - 1);
      SkipPresent(scope, fields, keys, sim, lines, m, st);
      assert fields[1..][i - 1..] == fields[i..];
      assert fields[..i][1..] == fields[1..][..i - 1];
    }
  }

  lemma UnaskedTail(scope: Scope, fields: seq<string>, keys: seq<string>, i: nat)
    requires 0 < i <= |fields|
    requires forall j :: 0 <= j < i ==> Unasked(scope, fields[j], keys)
    ensures Unasked(scope, fields[0], keys)
    ensures forall j :: 0 <= j < i - 1 ==> Unasked(scope, fields[1..][j], keys)
  {
  }

  lemma DeclinedFirst(scope: Scope, fields: seq<string>, keys: seq<string>, sim: Scorer,
                      lines: Lines, m: FieldMapping, st: Stats)
    requires fields != [] && fields[0] !in keys && !IsOperatorEntry(scope, fields[0])
    requires Declines(fields[0], keys, sim, lines)
    ensures MapFields(scope, fields, keys, sim, lines, m, st) == Err(Aborted(FieldNotMapped(scope, fields[0])))
  {
  }

  /** The entry the loop makes, without asking, for a field present in the
      sample or for the fact `operator`. */
  function PresentEntry(scope: Scope, f: string, keys: seq<string>, m: FieldMapping): FieldMapping {
    if IsOperatorEntry(scope, f) then m[f := if "operator" in keys then Some("operator") else None]
    else m[f := Some(f)]
  }

  lemma SkipPresent(scope: Scope, fields: seq<string>, keys: seq<string>, sim: Scorer,
                    lines: Lines, m: FieldMapping, st: Stats)
    requires fields != [] && Unasked(scope, fields[0], keys)
    ensures MapFields(scope, fields, keys, sim, lines, m, st)
      == MapFields(scope, fields[1..], keys, sim, lines, PresentEntry(scope, fields[0], keys, m), st)
  {
  }

  /** When every field is present in the sample (or is the fact `operator`),
      nothing is asked, nothing is logged and each field maps to itself. */
  lemma {:induction false} AllPresentNoPrompt(scope: Scope, fields: seq<string>, keys: seq<string>, sim: Scorer,
                                            lines: Lines, m: FieldMapping, st: Stats)
    requires forall f :: f in fields ==> f in keys || IsOperatorEntry(scope, f)
    ensures var r := MapFields(scope, fields, keys, sim, lines, m, st);
      r.Ok? && r.value.1 == lines && r.value.2 == st
    decreases |fields|
  {
    if fields != [] {
      var f := fields[0];
      assert forall g :: g in fields[1..] ==> g in fields;
      var m' := if IsOperatorEntry(scope, f) then m[f := if "operator" in keys then Some("operator") else None]
                else m[f := Some(f)];
      AllPresentNoPrompt(scope, fields[1..], keys, sim, lines, m', st);
    }
  }

  /** `--include-all`: `[f for f in available if f not in mapping.values()]`,
      the sample keys that no essential field is mapped to, in order. */
  function UnmappedKeys(available: seq<string>, m: FieldMapping): (r: seq<string>)
    ensures forall f :: f in r <==> f in available && Some(f) !in m.Values
    ensures IsSubsequence(r, available)
  {
    if available == [] then []
    else
      var rest := UnmappedKeys(available[1..], m);
      assert forall f :: f in available <==> f == available[0] || f in available[1..];
      if Some(available[0]) !in m.Values then [available[0]] + rest else rest
  }

  /** The optional fields of one record kind: all unmapped sample keys under
      `--include-all`, else the interactive selection. */
  function OptionalFields(includeAll: bool, available: seq<string>, scope: Scope, m: FieldMapping, lines: Lines)
    : (r: Result<(seq<string>, Lines), Failure>)
    ensures includeAll ==> r == Ok((UnmappedKeys(available, m), lines))
    ensures r.Ok? ==> forall f :: f in r.value.0 ==> f in available
    ensures r.Err? ==> r.error == EndOfInput
  {
    if includeAll then Ok((UnmappedKeys(available, m), lines))
    else PromptForOptionalFields(available, scope, lines)
  }
}
