/** The converter's three interactive prompts, driven by a script of typed
    lines: the container-key menu, the field chooser of
    `prompt_user_for_field`, and the optional-field selection of
    `prompt_for_optional_fields`. A prompt that re-asks on bad input consumes
    lines until one is accepted; running out of lines is `input()` raising
    EOFError. */
module Prompts {
  import opened Wrappers
  import opened Text
  import opened Similarity
  import opened Schema
  import opened Report

  /** The lines the user will type, in order. */
  type Lines = seq<string>

  /** Line `i` is the first line `accept` takes. */
  predicate FirstAccepted<T>(accept: string -> Option<T>, lines: Lines, i: int) {
    0 <= i < |lines| && accept(lines[i]).Some? && forall j :: 0 <= j < i ==> accept(lines[j]).None?
  }

  /** A re-asking prompt loop: the first line `accept` takes decides the answer. */
  function AwaitAnswer<T>(accept: string -> Option<T>, lines: Lines): (r: Result<(T, Lines), Failure>)
    ensures r.Ok? <==> exists i :: 0 <= i < |lines| && accept(lines[i]).Some?
    ensures r.Ok? ==> exists i :: FirstAccepted(accept, lines, i) && accept(lines[i]) == Some(r.value.0) && r.value.1 == lines[i + 1..]
    ensures r.Err? ==> r.error == EndOfInput
  {
    if lines == [] then Err(EndOfInput)
    else
      match accept(lines[0])
      case Some(a) => Ok((a, lines[1..]))
      case None =>
        var r := AwaitAnswer(accept, lines[1..]);
        assert forall i :: 0 <= i < |lines| - 1 ==> lines[1..][i] == lines[i + 1];
        assert r.Ok? ==> forall i :: 1 <= i < |lines| && accept(lines[i]).Some? ==> lines[1..][i - 1] == lines[i];
        r
  }

  /** The number a typed line denotes, when it is one of 1..n. */
  function MenuNumber(line: string, n: nat): (k: Option<nat>)
    ensures k.Some? ==> 1 <= k.value <= n && ParseInt(Strip(line)) == Some(k.value as int)
    ensures ParseInt(Strip(line)).Some? && 1 <= ParseInt(Strip(line)).value <= n
      ==> k == Some(ParseInt(Strip(line)).value as nat)
  {
    match ParseInt(Strip(line))
    case Some(v) => if 1 <= v <= n then Some(v as nat) else None
    case None => None
  }

  /** Typing a number of the menu, with any white space around it, picks it. */
  lemma MenuNumberTyped(k: nat, n: nat, pre: string, post: string)
    requires 1 <= k <= n && AllSpace(pre) && AllSpace(post)
    ensures MenuNumber(pre + Show(k) + post, n) == Some(k)
  {
    var s := Show(k);
    StripPadded(pre, s, post);
    StripKeepsTrimmed(s);
    ParseIntShow(k);
  }

  /** Line `i` is the first line that names an entry of a menu of `n`. */
  predicate FirstMenuLine(lines: Lines, n: nat, i: int) {
    0 <= i < |lines| && MenuNumber(lines[i], n).Some?
    && forall j :: 0 <= j < i ==> MenuNumber(lines[j], n).None?
  }

  /** One answer to the container menu (`Select the key containing levels`). */
  function ContainerAnswer(keys: seq<string>, line: string): (a: Option<string>)
    ensures a.Some? <==> MenuNumber(line, |keys|).Some?
    ensures a.Some? ==> a.value == keys[MenuNumber(line, |keys|).value - 1]
  {
    match MenuNumber(line, |keys|)
    case Some(k) => Some(keys[k - 1])
    case None => None
  }

  /** The container-key menu of `convert_json`; only shown when there is at
      least one candidate key. */
  function ChooseContainer(keys: seq<string>, lines: Lines): (r: Result<(string, Lines), Failure>)
    requires |keys| > 0
    ensures r.Ok? ==> r.value.0 in keys
    ensures r.Ok? <==> exists i :: 0 <= i < |lines| && MenuNumber(lines[i], |keys|).Some?
    ensures r.Ok? ==> exists i :: (FirstMenuLine(lines, |keys|, i)
      && r.value.0 == keys[MenuNumber(lines[i], |keys|).value - 1] && r.value.1 == lines[i + 1..])
    ensures r.Err? ==> r.error == EndOfInput
  {
    var r := AwaitAnswer(line => ContainerAnswer(keys, line), lines);
    assert forall i :: 0 <= i < |lines| ==>
      (ContainerAnswer(keys, lines[i]).Some? <==> MenuNumber(lines[i], |keys|).Some?);
    assert forall i :: FirstAccepted(line => ContainerAnswer(keys, line), lines, i) ==> FirstMenuLine(lines, |keys|, i);
    r
  }

  /** One answer to the field chooser. With suggestions on offer: `0` skips
      and `1..n` picks a suggestion. Without: an empty line skips and a key of
      the sample record is taken as typed. Anything else is asked again
      (None). */
  function FieldAnswer(line: string, offered: seq<Match>, keys: seq<string>): (a: Option<Option<string>>)
    requires forall m :: m in offered ==> m.0 in keys
    ensures a.Some? && a.value.Some? ==> a.value.value in keys
    ensures |offered| > 0 && a.Some? && a.value.Some? ==> exists m :: m in offered && m.0 == a.value.value
    ensures |offered| > 0 ==> (a == Some(None) <==> ParseInt(Strip(line)) == Some(0))
    ensures |offered| > 0 ==> (a.Some? && a.value.Some? <==> MenuNumber(line, |offered|).Some?)
    ensures |offered| > 0 && MenuNumber(line, |offered|).Some?
      ==> a == Some(Some(offered[MenuNumber(line, |offered|).value - 1].0))
    ensures |offered| == 0 ==> (a == Some(None) <==> Strip(line) == "")
    ensures |offered| == 0 && Strip(line) != "" ==> (a.Some? <==> Strip(line) in keys)
    ensures |offered| == 0 && Strip(line) != "" && Strip(line) in keys ==> a == Some(Some(Strip(line)))
  {
    if |offered| > 0 then
      if ParseInt(Strip(line)) == Some(0) then Some(None)
      else
        match MenuNumber(line, |offered|)
        case Some(k) => assert offered[k - 1] in offered; Some(Some(offered[k - 1].0))
        case None => None
    else
      var typed := Strip(line);
      if typed == "" then Some(None)
      else if typed in keys then Some(Some(typed))
      else None
  }

  function Min(a: nat, b: nat): nat {
    if a <= b then a else b
  }

  /** The suggestions the field chooser shows: `similar[:5]`, the five
      best-scoring keys (all of them when fewer reach the threshold). */
  function Offered(field: string, keys: seq<string>, sim: Scorer): (o: seq<Match>)
    ensures var similar := FindSimilarKeys(field, keys, sim, DefaultThreshold);
      |o| == Min(5, |similar|) && o == similar[..|o|]
      && (forall i, j :: 0 <= i < |o| <= j < |similar| ==> similar[j].1 <= o[i].1)
    ensures forall m :: m in o ==> m.0 in keys && m.1 == sim(field, m.0) && m.1 >= DefaultThreshold
  {
    var similar := FindSimilarKeys(field, keys, sim, DefaultThreshold);
    var o := similar[..Min(5, |similar|)];
    assert forall m :: m in o ==> m in similar;
    o
  }

  /** Line `i` is the first line the field chooser accepts. */
  predicate FirstFieldLine(lines: Lines, offered: seq<Match>, keys: seq<string>, i: int)
    requires forall m :: m in offered ==> m.0 in keys
  {
    0 <= i < |lines| && FieldAnswer(lines[i], offered, keys).Some?
    && forall j :: 0 <= j < i ==> FieldAnswer(lines[j], offered, keys).None?
  }

  /** `prompt_user_for_field`: offers the five best-scoring keys, or asks for a
      key by name when none reaches the threshold; None is a decline. */
  function PromptUserForField(field: string, keys: seq<string>, sim: Scorer, lines: Lines)
    : (r: Result<(Option<string>, Lines), Failure>)
    ensures r.Ok? && r.value.0.Some? ==> r.value.0.value in keys
    ensures r.Ok? && r.value.0.Some? && |FindSimilarKeys(field, keys, sim, DefaultThreshold)| > 0
      ==> sim(field, r.value.0.value) >= DefaultThreshold
    ensures r.Err? ==> r.error == EndOfInput
  {
    var offered := Offered(field, keys, sim);
    AwaitAnswer(line => FieldAnswer(line, offered, keys), lines)
  }

  /** The chooser's answer is that of the first line it accepts, among the
      suggestions `Offered` lists, and the lines after it are left unread. */
  lemma PromptUserForFieldAnswer(field: string, keys: seq<string>, sim: Scorer, lines: Lines)
    ensures var r := PromptUserForField(field, keys, sim, lines);
      && (r.Ok? <==> exists i :: 0 <= i < |lines| && FieldAnswer(lines[i], Offered(field, keys, sim), keys).Some?)
      && (r.Ok? ==> exists i :: (FirstFieldLine(lines, Offered(field, keys, sim), keys, i)
            && FieldAnswer(lines[i], Offered(field, keys, sim), keys) == Some(r.value.0) && r.value.1 == lines[i + 1..]))
  {
    var offered := Offered(field, keys, sim);
    assert forall i :: FirstAccepted(line => FieldAnswer(line, offered, keys), lines, i) ==> FirstFieldLine(lines, offered, keys, i);
  }

  /** The optional-field candidates: `[f for f in available if f in pool or
      f not in ESSENTIAL_LEVEL_FIELDS + ESSENTIAL_FACT_FIELDS]`. */
  function OptionalCandidates(available: seq<string>, scope: Scope): (c: seq<string>)
    ensures forall f :: f in c <==> f in available && f !in EssentialLevelFields + EssentialFactFields
    ensures IsSubsequence(c, available)
  {
    if available == [] then []
    else
      var pool := if scope == LevelScope then OptionalLevelFields else OptionalFactFields;
      var f := available[0];
      var rest := OptionalCandidates(available[1..], scope);
      if f in pool || f !in EssentialLevelFields + EssentialFactFields then [f] + rest else rest
  }

  /** `a` is `b` with some elements left out, the rest in order. */
  ghost predicate IsSubsequence<T>(a: seq<T>, b: seq<T>) {
    if a == [] then true
    else if b == [] then false
    else if a[0] == b[0] then IsSubsequence(a[1..], b[1..])
    else IsSubsequence(a, b[1..])
  }

  /** A subsequence of `b` stays one when anything is put in front of `b`. */
  lemma {:induction false} SubsequenceExtend<T>(a: seq<T>, b: seq<T>, x: T)
    requires IsSubsequence(a, b)
    ensures IsSubsequence(a, [x] + b)
    decreases |b|, 1
  {
    assert ([x] + b)[1..] == b;
    if a != [] && a[0] == x {
      SubsequenceTail(a, b);
    }
  }

  /** Dropping the first element of a subsequence leaves a subsequence. */
  lemma {:induction false} SubsequenceTail<T>(a: seq<T>, b: seq<T>)
    requires a != [] && IsSubsequence(a, b)
    ensures IsSubsequence(a[1..], b)
    decreases |b|, 0
  {
    assert b[0..1] + b[1..] == b && b[0..1] == [b[0]];
    if a[0] == b[0] {
      SubsequenceExtend(a[1..], b[1..], b[0]);
    } else {
      SubsequenceTail(a, b[1..]);
      SubsequenceExtend(a[1..], b[1..], b[0]);
    }
  }

  /** The typed numbers that name a candidate, in the order typed. */
  function InRange(ns: seq<int>, n: nat): (rs: seq<nat>)
    ensures forall i :: 0 <= i < |rs| ==> 1 <= rs[i] <= n
    ensures forall k :: k in ns && 1 <= k <= n ==> k in rs
    ensures forall k :: k in rs ==> k in ns
    ensures forall k: nat :: 1 <= k <= n ==> multiset(rs)[k] == multiset(ns)[k]
  {
    if ns == [] then []
    else
      assert ns == [ns[0]] + ns[1..];
      (if 1 <= ns[0] <= n then [ns[0] as nat] else []) + InRange(ns[1..], n)
  }

  /** The in-range numbers of typed text written in two pieces are those of
      the first piece followed by those of the second. */
  lemma {:induction false} InRangeAppend(a: seq<int>, b: seq<int>, n: nat)
    ensures InRange(a + b, n) == InRange(a, n) + InRange(b, n)
  {
    if a != [] {
      assert (a + b)[1..] == a[1..] + b;
      InRangeAppend(a[1..], b, n);
    } else {
      assert a + b == b;
    }
  }

  /** `[found_optional[i-1] for i in indices if 1 <= i <= len(found_optional)]` */
  function SelectNumbers(cands: seq<string>, ns: seq<int>): (r: seq<string>)
    ensures |r| == |InRange(ns, |cands|)|
    ensures forall k :: 0 <= k < |r| ==> r[k] == cands[InRange(ns, |cands|)[k] - 1]
  {
    if ns == [] then []
    else
      var rest := SelectNumbers(cands, ns[1..]);
      if 1 <= ns[0] <= |cands| then [cands[ns[0] - 1]] + rest else rest
  }

  /** Every token read with `parse`, None as soon as one does not read. */
  function ParseEach(tokens: seq<string>, parse: string -> Option<int>): (r: Option<seq<int>>)
    ensures r.Some? ==> |r.value| == |tokens| && forall i :: 0 <= i < |tokens| ==> parse(tokens[i]) == Some(r.value[i])
    ensures r.None? ==> exists i :: 0 <= i < |tokens| && parse(tokens[i]).None?
  {
    if tokens == [] then Some([])
    else
      match parse(tokens[0])
      case None => None
      case Some(n) =>
        match ParseEach(tokens[1..], parse)
        case None => None
        case Some(ns) => Some([n] + ns)
  }

  /** `[int(x.strip()) for x in tokens]`, None when one token is not an integer. */
  function ParseAll(tokens: seq<string>): (r: Option<seq<int>>)
    ensures r.Some? ==> |r.value| == |tokens| && forall i :: 0 <= i < |tokens| ==> ParseInt(tokens[i]) == Some(r.value[i])
    ensures r.None? ==> exists i :: 0 <= i < |tokens| && ParseInt(tokens[i]).None?
  {
    ParseEach(tokens, ParseInt)
  }

  /** The selection rule applied to the stripped, lower-cased answer. */
  function ParseSelection(cands: seq<string>, choice: string): (r: seq<string>)
    ensures forall f :: f in r ==> f in cands
    ensures choice == "" ==> r == []
    ensures choice == "all" ==> r == cands
    ensures choice != "all" && (exists t :: t in Split(choice, ',') && ParseInt(t).None?) ==> r == []
  {
    if choice == "" then []
    else if choice == "all" then cands
    else
      match ParseAll(Split(choice, ','))
      case None => []
      case Some(ns) =>
        var r := SelectNumbers(cands, ns);
        assert forall k :: 0 <= k < |r| ==> r[k] in cands;
        r
  }

  /** `prompt_for_optional_fields`: no prompt (and no line read) when there is
      no candidate; otherwise one line decides the selection. */
  function PromptForOptionalFields(available: seq<string>, scope: Scope, lines: Lines)
    : (r: Result<(seq<string>, Lines), Failure>)
    ensures OptionalCandidates(available, scope) == [] ==> r == Ok(([], lines))
    ensures r.Ok? ==> forall f :: f in r.value.0 ==> f in available && f !in EssentialLevelFields + EssentialFactFields
    ensures r.Err? <==> OptionalCandidates(available, scope) != [] && lines == []
    ensures r.Err? ==> r.error == EndOfInput
  {
    var cands := OptionalCandidates(available, scope);
    if cands == [] then Ok(([], lines))
    else if lines == [] then Err(EndOfInput)
    else Ok((ParseSelection(cands, Lower(Strip(lines[0]))), lines[1..]))
  }

  /** The numbers written out, one piece per number. */
  function ShowAll(ns: seq<int>): (parts: seq<string>)
    ensures |parts| == |ns| && forall i :: 0 <= i < |ns| ==> parts[i] == Show(ns[i])
  {
    seq(|ns|, i requires 0 <= i < |ns| => Show(ns[i]))
  }

  /** What a user types to pick numbers: the numbers written out and joined
      with commas. */
  function TypedNumbers(ns: seq<int>): string
    requires |ns| > 0
  {
    Join(ShowAll(ns), ',')
  }

  predicate NumeralChar(c: char) {
    IsDigit(c) || c == '-' || c == ','
  }

  lemma {:induction false} JoinOfNumerals(parts: seq<string>)
    requires |parts| > 0
    requires forall p :: p in parts ==> |p| > 0 && IsDigit(p[|p| - 1]) && forall c :: c in p ==> NumeralChar(c)
    ensures var s := Join(parts, ',');
      |s| > 0 && s[0] == parts[0][0] && IsDigit(s[|s| - 1]) && forall c :: c in s ==> NumeralChar(c)
    decreases |parts|
  {
    if |parts| > 1 {
      JoinOfNumerals(parts[1..]);
      var t := Join(parts[1..], ',');
      assert Join(parts, ',') == parts[0] + [','] + t;
      assert forall c :: c in parts[0] + [','] + t ==> c in parts[0] || c == ',' || c in t;
    }
  }

  lemma LowerKeepsNumerals(s: string)
    requires forall c :: c in s ==> NumeralChar(c)
    ensures Lower(s) == s
  {
    forall i | 0 <= i < |s|
      ensures Lower(s)[i] == s[i]
    {
      assert s[i] in s;
    }
  }

  /** The typed text survives `strip()` and `lower()` unchanged and is
      neither empty nor `all`. */
  lemma TypedNumbersShape(ns: seq<int>)
    requires |ns| > 0
    ensures var s := TypedNumbers(ns);
      Lower(Strip(s)) == s && s != "" && s != "all"
  {
    var parts := ShowAll(ns);
    forall p | p in parts
      ensures |p| > 0 && IsDigit(p[|p| - 1]) && forall c :: c in p ==> NumeralChar(c)
    {
      var i :| 0 <= i < |parts| && parts[i] == p;
      assert p == Show(ns[i]);
      forall c | c in p ensures NumeralChar(c) {
        var j :| 0 <= j < |p| && p[j] == c;
      }
    }
    JoinOfNumerals(parts);
    var s := TypedNumbers(ns);
    StripKeepsTrimmed(s);
    LowerKeepsNumerals(s);
    assert s[0] == parts[0][0];
  }

  /** Tokens that each read as the matching number read as the list. */
  lemma {:induction false} ParseEachOf(tokens: seq<string>, ns: seq<int>, parse: string -> Option<int>)
    requires |tokens| == |ns|
    requires forall i :: 0 <= i < |tokens| ==> parse(tokens[i]) == Some(ns[i])
    ensures ParseEach(tokens, parse) == Some(ns)
  {
    if tokens != [] {
      assert parse(tokens[0]) == Some(ns[0]);
      assert forall i :: 0 <= i < |tokens[1..]| ==> tokens[1..][i] == tokens[i + 1] && ns[1..][i] == ns[i + 1];
      ParseEachOf(tokens[1..], ns[1..], parse);
      assert ns == [ns[0]] + ns[1..];
    }
  }

  /** Each written-out number reads back as itself. */
  lemma ParseAllShown(ns: seq<int>)
    ensures ParseAll(ShowAll(ns)) == Some(ns)
  {
    var parts := ShowAll(ns);
    forall i | 0 <= i < |parts| ensures ParseInt(parts[i]) == Some(ns[i]) {
      ParseIntShow(ns[i]);
    }
    ParseEachOf(parts, ns, ParseInt);
  }

  /** Typing a comma-separated list of numbers selects the candidates those
      numbers name, in the order typed, duplicates kept, numbers outside
      1..|cands| dropped. */
  lemma TypedSelection(cands: seq<string>, ns: seq<int>)
    requires |ns| > 0
    ensures ParseSelection(cands, Lower(Strip(TypedNumbers(ns)))) == SelectNumbers(cands, ns)
  {
    var parts := ShowAll(ns);
    TypedNumbersShape(ns);
    ShownWithoutComma(ns);
    SplitJoin(parts, ',');
    ParseAllShown(ns);
    var s := TypedNumbers(ns);
    assert ParseAll(Split(s, ',')) == Some(ns);
  }

  lemma ShownWithoutComma(ns: seq<int>)
    ensures forall p :: p in ShowAll(ns) ==> ',' !in p
  {
    var parts := ShowAll(ns);
    forall p | p in parts ensures ',' !in p {
      var i :| 0 <= i < |parts| && parts[i] == p;
      assert p == Show(ns[i]);
    }
  }
}
