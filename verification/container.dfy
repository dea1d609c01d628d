/** Step 1 of `convert_json`: finding the list of level records in the input
    document, and the one-level `tracks` flattening. */
module Container {
  import opened Wrappers
  import opened Json
  import opened Report
  import opened Prompts

  /** `isinstance(v, (dict, list))` */
  predicate IsContainer(v: Json) {
    v.JObj? || v.JArr?
  }

  /** The menu of candidate keys: the document's keys whose value is a dict
      or a list, in document order. */
  function ContainerKeys(o: Obj): (ks: seq<string>)
    ensures forall k :: k in ks <==> exists i :: 0 <= i < |o| && o[i].0 == k && IsContainer(o[i].1)
    ensures forall k :: k in ks ==> Has(o, k)
    ensures IsSubsequence(ks, Keys(o))
  {
    if o == [] then []
    else
      var rest := ContainerKeys(o[1..]);
      assert Keys(o) == [o[0].0] + Keys(o[1..]);
      assert Keys(o)[1..] == Keys(o[1..]);
      assert forall i :: 1 <= i < |o| ==> o[i] == o[1..][i - 1];
      if IsContainer(o[0].1) then
        assert ([o[0].0] + rest)[1..] == rest;
        [o[0].0] + rest
      else
        SubsequenceExtend(rest, Keys(o[1..]), o[0].0);
        rest
  }

  /** The chosen container's value as a list of levels: a dict gives its
      values in order. `len(levels_array)` raises on a value without a
      length (null, a bool, a number); an empty list, dict or string then
      aborts; a non-empty string fails at `.keys()` on its first character. */
  function LevelList(v: Json): (r: Result<seq<Json>, Failure>)
    ensures r.Ok? <==> (v.JArr? && |v.items| > 0) || (v.JObj? && |v.fields| > 0)
    ensures r.Ok? && v.JArr? ==> r.value == v.items
    ensures r.Ok? && v.JObj? ==> r.value == Values(v.fields)
    ensures r == Err(Aborted(NoLevels)) <==> v == JArr([]) || v == JObj([]) || v == JStr("")
    ensures r.Err? ==> r.error == Aborted(NoLevels) || r.error == Crash
  {
    var arr := if v.JObj? then JArr(Values(v.fields)) else v;
    if !(arr.JArr? || arr.JStr?) then Err(Crash)
    else if !Truthy(arr) then Err(Aborted(NoLevels))
    else if arr.JArr? then Ok(arr.items)
    else Err(Crash)
  }

  /** Resolution of the levels container: the `levels` key when present
      (nothing is asked), otherwise the key picked from the menu of dict and
      list values. A document that is not a dict makes `'levels' in
      input_data` or `input_data.keys()` fail; an empty-string key is refused
      by `if not levels_key`. */
  function ResolveContainer(doc: Json, lines: Lines): (r: Result<(seq<Json>, Lines), Failure>)
    ensures !doc.JObj? ==> r == Err(Crash)
    ensures doc.JObj? && !Has(doc.fields, "levels") && ContainerKeys(doc.fields) == []
      ==> r == Err(Aborted(NoContainer))
    ensures r.Ok? ==> |r.value.0| > 0
    ensures r.Ok? ==> exists key :: Has(doc.fields, key) && key != "" && LevelList(Get(doc.fields, key)) == Ok(r.value.0)
    ensures r.Err? && r.error.Aborted? ==> r.error.reason == NoContainer || r.error.reason == NoLevels
  {
    if !doc.JObj? then Err(Crash)
    else
      var o := doc.fields;
      var chosen: Result<(string, Lines), Failure> :=
        if Has(o, "levels") then Ok(("levels", lines))
        else
          var ks := ContainerKeys(o);
          if ks == [] then Err(Aborted(NoContainer)) else ChooseContainer(ks, lines);
      match chosen
      case Err(e) => Err(e)
      case Ok((key, rest)) =>
        if key == "" then Err(Aborted(NoContainer))
        else
          match LevelList(Get(o, key))
          case Err(e) => Err(e)
          case Ok(levels) => Ok((levels, rest))
  }

  /** With a `levels` key the document decides alone: no line is read, and
      the levels are that value's list (or its dict's values). */
  lemma LevelsKeyWins(o: Obj, lines: Lines)
    requires Has(o, "levels")
    ensures var r := ResolveContainer(JObj(o), lines);
      && (r.Ok? <==> LevelList(Get(o, "levels")).Ok?)
      && (r.Ok? ==> r.value == (LevelList(Get(o, "levels")).value, lines))
      && (r.Err? ==> r.error == LevelList(Get(o, "levels")).error)
  {
  }

  /** Without a `levels` key the menu decides: the key picked by the first
      valid menu line is used, an empty key aborts, and only the lines after
      that one remain. */
  lemma MenuDecides(o: Obj, lines: Lines)
    requires !Has(o, "levels") && ContainerKeys(o) != []
    ensures var r := ResolveContainer(JObj(o), lines);
      var c := ChooseContainer(ContainerKeys(o), lines);
      && (c.Err? ==> r == Err(c.error))
      && (c.Ok? && c.value.0 == "" ==> r == Err(Aborted(NoContainer)))
      && (c.Ok? && c.value.0 != "" && LevelList(Get(o, c.value.0)).Ok?
          ==> r == Ok((LevelList(Get(o, c.value.0)).value, c.value.1)))
      && (c.Ok? && c.value.0 != "" && LevelList(Get(o, c.value.0)).Err?
          ==> r == Err(LevelList(Get(o, c.value.0)).error))
  {
  }

  /** `'tracks' in container and isinstance(container['tracks'], dict)`, None
      where Python raises: `in` on a number, bool or null, or a subscript of a
      list or string that passed the `in` test. */
  function TrackDict(c: Json): (r: Option<bool>)
    ensures c.JObj? ==> r == Some(Has(c.fields, "tracks") && Get(c.fields, "tracks").JObj?)
    ensures r.None? <==> !c.JObj? && PyContains(c, "tracks") != Some(false)
  {
    match PyContains(c, "tracks")
    case None => None
    case Some(false) => Some(false)
    case Some(true) => if c.JObj? then Some(Get(c.fields, "tracks").JObj?) else None
  }

  /** The tracks a container contributes: the values of its `tracks` dict. */
  function TracksOf(c: Json): seq<Json> {
    if c.JObj? && Has(c.fields, "tracks") && Get(c.fields, "tracks").JObj?
    then Values(Get(c.fields, "tracks").fields) else []
  }

  /** The flattening loop: every container's tracks, in order; None when a
      container makes the test raise. */
  function FlattenTracks(cs: seq<Json>): (r: Option<seq<Json>>)
  {
    if cs == [] then Some([])
    else
      match TrackDict(cs[0])
      case None => None
      case Some(_) =>
        match FlattenTracks(cs[1..])
        case None => None
        case Some(rest) => Some(TracksOf(cs[0]) + rest)
  }

  /** Flattening fails exactly when some container makes the test raise. */
  lemma {:induction false} FlattenTracksFails(cs: seq<Json>)
    ensures FlattenTracks(cs).Some? <==> forall i :: 0 <= i < |cs| ==> TrackDict(cs[i]).Some?
  {
    if cs != [] {
      FlattenTracksFails(cs[1..]);
      assert forall i :: 1 <= i < |cs| ==> cs[i] == cs[1..][i - 1];
    }
  }

  /** One container's step of the flattening loop. */
  lemma FlattenCons(cs: seq<Json>)
    requires |cs| > 0
    ensures FlattenTracks(cs).Some? <==> TrackDict(cs[0]).Some? && FlattenTracks(cs[1..]).Some?
    ensures FlattenTracks(cs).Some? ==> FlattenTracks(cs).value == TracksOf(cs[0]) + FlattenTracks(cs[1..]).value
  {
  }

  /** Every flattened record is a track of some container, and every track
      of every container is kept. */
  lemma {:induction false} FlattenMembers(cs: seq<Json>)
    requires FlattenTracks(cs).Some?
    ensures forall t :: t in FlattenTracks(cs).value <==> exists i :: 0 <= i < |cs| && t in TracksOf(cs[i])
  {
    if cs != [] {
      FlattenCons(cs);
      FlattenMembers(cs[1..]);
      assert forall i :: 1 <= i < |cs| ==> cs[i] == cs[1..][i - 1];
      forall t | t in FlattenTracks(cs).value
        ensures exists i :: 0 <= i < |cs| && t in TracksOf(cs[i])
      {
        if t !in TracksOf(cs[0]) {
          var j :| 0 <= j < |cs[1..]| && t in TracksOf(cs[1..][j]);
          assert t in TracksOf(cs[j + 1]);
        }
      }
    }
  }

  /** A dict container with a dict `tracks` contributes exactly that dict's
      values; any other dict contributes nothing. */
  lemma FlattenOne(c: Json)
    requires c.JObj?
    ensures FlattenTracks([c]) == Some(
      if Has(c.fields, "tracks") && Get(c.fields, "tracks").JObj? then Values(Get(c.fields, "tracks").fields) else [])
  {
    assert [c][1..] == [];
    assert FlattenTracks([c]) == Some(TracksOf(c) + []);
    assert TracksOf(c) + [] == TracksOf(c);
  }

  /** Steps 1.5 and 2 of `convert_json`: flatten when the first level has a
      dict `tracks`, then take the first record as the sample level. An empty
      flattened list or a sample that is not a dict raises. */
  function SampleLevels(levels: seq<Json>): (r: Result<(seq<Json>, Obj), Failure>)
    requires |levels| > 0
    ensures r.Ok? ==> |r.value.0| > 0 && r.value.0[0] == JObj(r.value.1)
    ensures !levels[0].JObj? ==> r == Err(Crash)
    ensures r.Err? ==> r.error == Crash
    ensures levels[0].JObj? && TrackDict(levels[0]) == Some(false) && levels[0] == JObj(levels[0].fields)
      ==> r == Ok((levels, levels[0].fields))
    ensures TrackDict(levels[0]) == Some(true) && r.Ok? ==> Some(r.value.0) == FlattenTracks(levels)
  {
    if !levels[0].JObj? then Err(Crash)
    else
      var flat := if TrackDict(levels[0]) == Some(true) then FlattenTracks(levels) else Some(levels);
      match flat
      case None => Err(Crash)
      case Some(ls) =>
        if ls == [] || !ls[0].JObj? then Err(Crash)
        else Ok((ls, ls[0].fields))
  }
}
