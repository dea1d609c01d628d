/** `main` after the arguments are read: the existing output file's levels
    are picked up (unless `--wipe-output-file` is given), the input is
    converted, and the new levels are appended after the existing ones. */
module Merge {
  import opened Wrappers
  import opened Json
  import opened Similarity
  import opened Report
  import opened Prompts
  import opened Facts
  import opened Assembly
  import opened Convert

  /** What opening the output file gives: no such file, a file that cannot
      be read or is not valid JSON, or a parsed document. */
  datatype OutputFile = Missing | Unreadable | Parsed(doc: Json)

  /** An output document: a dict with a `levels` list. */
  predicate HasLevels(o: Obj) {
    Has(o, "levels") && Get(o, "levels").JArr?
  }

  /** The levels an existing output file contributes. Only a dict whose
      `levels` value is a list counts; anything else, including every
      value on which the `'levels' in ...` test or the indexing raises, is
      replaced, and so is everything under `--wipe-output-file`. */
  function ExistingLevels(file: OutputFile, wipe: bool): (r: Option<seq<Json>>)
    ensures r.Some? ==> !wipe && file.Parsed? && file.doc.JObj?
    ensures r.Some? ==> Has(file.doc.fields, "levels") && Get(file.doc.fields, "levels") == JArr(r.value)
    ensures (!wipe && file.Parsed? && file.doc.JObj? && HasLevels(file.doc.fields)) ==> r.Some?
  {
    if wipe then None
    else
      match file
      case Parsed(JObj(o)) =>
        if Has(o, "levels") && Get(o, "levels").JArr? then Some(Get(o, "levels").items) else None
      case _ => None
  }

  /** The levels kept in front of the new ones. */
  function Prior(existing: Option<seq<Json>>): seq<Json> {
    if existing.Some? then existing.value else []
  }

  /** `output_data['levels'] = existing_data['levels'] + output_data['levels']`
      when there is an existing levels list; the output unchanged otherwise. */
  function MergeInto(existing: Option<seq<Json>>, output: Obj): (r: Obj)
    requires HasLevels(output)
    ensures existing.None? ==> r == output
    ensures Keys(r) == Keys(output) && HasLevels(r)
    ensures Get(r, "levels").items == Prior(existing) + Get(output, "levels").items
    ensures forall k :: k != "levels" && Has(output, k) ==> Get(r, k) == Get(output, k)
  {
    match existing
    case None => output
    case Some(prior) => Set(output, "levels", JArr(prior + Get(output, "levels").items))
  }

  /** A successful conversion's output is a `levels` dict. */
  lemma ConvertHasLevels(v: Variant, doc: Json, includeAll: bool, sim: Scorer, lines: Lines, st: Stats)
    requires ConvertJson(v, doc, includeAll, sim, lines, st).Ok?
    ensures var out := ConvertJson(v, doc, includeAll, sim, lines, st).value.0;
      out.JObj? && HasLevels(out.fields)
  {
    ConvertFactCounts(v, doc, includeAll, sim, lines, st);
  }

  /** One run of the tool: the document it writes and the final statistics,
      or why nothing is written. */
  function Insert(v: Variant, input: Json, file: OutputFile, wipe: bool, includeAll: bool, sim: Scorer, lines: Lines, st: Stats)
    : (r: Result<(Json, Stats), Failure>)
    ensures r.Ok? <==> ConvertJson(v, input, includeAll, sim, lines, st).Ok?
    ensures r.Err? ==> r.error == ConvertJson(v, input, includeAll, sim, lines, st).error
    ensures r.Ok? ==>
      var out := ConvertJson(v, input, includeAll, sim, lines, st).value.0;
      && out.JObj? && HasLevels(out.fields)
      && r.value == (JObj(MergeInto(ExistingLevels(file, wipe), out.fields)), ConvertJson(v, input, includeAll, sim, lines, st).value.1)
  {
    match ConvertJson(v, input, includeAll, sim, lines, st)
    case Err(e) => Err(e)
    case Ok((out, st')) =>
      ConvertHasLevels(v, input, includeAll, sim, lines, st);
      Ok((JObj(MergeInto(ExistingLevels(file, wipe), out.fields)), st'))
  }

  /** A run writes the existing levels unchanged, followed by one reference
      record per input level, in order; with `--wipe-output-file`, or with no
      usable existing file, only the new levels. */
  lemma InsertLevels(v: Variant, input: Json, file: OutputFile, wipe: bool, includeAll: bool, sim: Scorer, lines: Lines, st: Stats)
    requires Insert(v, input, file, wipe, includeAll, sim, lines, st).Ok?
    ensures var written := Insert(v, input, file, wipe, includeAll, sim, lines, st).value.0;
      var a := Analyze(input, includeAll, sim, lines, st).value;
      && Analyze(input, includeAll, sim, lines, st).Ok?
      && written.JObj? && Keys(written.fields) == ["levels"] && HasLevels(written.fields)
      && Get(written.fields, "levels").items == Prior(ExistingLevels(file, wipe)) + ObjArray(LevelRecords(v, a.levels, a.plan))
  {
    ConvertOutcome(v, input, includeAll, sim, lines, st);
    ConvertFactCounts(v, input, includeAll, sim, lines, st);
    var out := ConvertJson(v, input, includeAll, sim, lines, st).value.0;
    var a := Analyze(input, includeAll, sim, lines, st).value;
    assert out.fields == [("levels", JArr(ObjArray(LevelRecords(v, a.levels, a.plan))))];
    assert Get(out.fields, "levels").items == ObjArray(LevelRecords(v, a.levels, a.plan));
  }

  /** The file a run writes, read back by the next run, contributes every
      level it holds. */
  lemma MergeReadBack(existing: Option<seq<Json>>, output: Obj)
    requires HasLevels(output)
    ensures ExistingLevels(Parsed(JObj(MergeInto(existing, output))), false)
         == Some(Prior(existing) + Get(output, "levels").items)
  {
  }

  /** Two runs in a row, without wiping, stack their levels after the
      existing ones in run order. */
  lemma MergeAccumulates(existing: Option<seq<Json>>, first: Obj, second: Obj)
    requires HasLevels(first) && HasLevels(second)
    ensures var once := MergeInto(existing, first);
      var twice := MergeInto(ExistingLevels(Parsed(JObj(once)), false), second);
      Get(twice, "levels").items == Prior(existing) + Get(first, "levels").items + Get(second, "levels").items
  {
    MergeReadBack(existing, first);
  }
}
