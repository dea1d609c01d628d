/** The string operations the converter applies to what the user types:
    `str.strip`, `str.lower`, `str.split(',')` and `int(...)`. */
module Text {
  import opened Wrappers

  /** The characters for which Python's `str.isspace()` holds; these are what
      `str.strip()` removes and what `int()` tolerates around a number. */
  predicate IsSpace(c: char) {
    var n := c as int;
    || n == 0x20 || 0x09 <= n <= 0x0D || 0x1C <= n <= 0x1F || n == 0x85 || n == 0xA0
    || n == 0x1680 || 0x2000 <= n <= 0x200A || n == 0x2028 || n == 0x2029
    || n == 0x202F || n == 0x205F || n == 0x3000
  }

  predicate AllSpace(s: string) {
    forall i :: 0 <= i < |s| ==> IsSpace(s[i])
  }

  lemma AllSpaceAppend(a: string, b: string)
    requires AllSpace(a) && AllSpace(b)
    ensures AllSpace(a + b)
  {
    forall k | 0 <= k < |a + b| ensures IsSpace((a + b)[k]) {
      if k < |a| { assert (a + b)[k] == a[k]; } else { assert (a + b)[k] == b[k - |a|]; }
    }
  }

  /** The number of white-space characters `s` starts with. */
  function LeadingSpace(s: string): (n: nat)
    ensures n <= |s| && AllSpace(s[..n])
    ensures n < |s| ==> !IsSpace(s[n])
  {
    if |s| > 0 && IsSpace(s[0]) then
      var n := 1 + LeadingSpace(s[1..]);
      assert forall k :: 1 <= k < n ==> s[..n][k] == s[1..][..n - 1][k - 1];
      n
    else 0
  }

  /** The number of white-space characters `s` ends with. */
  function TrailingSpace(s: string): (n: nat)
    ensures n <= |s| && AllSpace(s[|s| - n..])
    ensures n < |s| ==> !IsSpace(s[|s| - n - 1])
  {
    if |s| > 0 && IsSpace(s[|s| - 1]) then
      var m := TrailingSpace(s[..|s| - 1]);
      TrailingStep(s, m);
      m + 1
    else 0
  }

  lemma TrailingStep(s: string, m: nat)
    requires 0 < |s| && IsSpace(s[|s| - 1]) && m < |s|
    requires AllSpace(s[..|s| - 1][|s| - 1 - m..])
    ensures AllSpace(s[|s| - m - 1..])
    ensures m + 1 < |s| ==> s[|s| - m - 2] == s[..|s| - 1][|s| - 1 - m - 1]
  {
    assert s[|s| - m - 1..] == s[..|s| - 1][|s| - 1 - m..] + [s[|s| - 1]];
    AllSpaceAppend(s[..|s| - 1][|s| - 1 - m..], [s[|s| - 1]]);
  }

  /** `s.strip()` */
  function Strip(s: string): (r: string)
    ensures |r| <= |s|
    ensures r == [] || (!IsSpace(r[0]) && !IsSpace(r[|r| - 1]))
    ensures r == [] <==> AllSpace(s)
  {
    var i := LeadingSpace(s);
    if i == |s| then
      assert s[..i] == s;
      []
    else
      var n := TrailingSpace(s[i..]);
      assert s[i] == s[i..][0];
      s[i..|s| - n]
  }

  /** What `strip()` keeps is a slice of the text with only white space
      before and after it. */
  lemma StripIsSlice(s: string)
    ensures exists i, j :: 0 <= i <= j <= |s| && Strip(s) == s[i..j] && AllSpace(s[..i]) && AllSpace(s[j..])
  {
    var i, j := StripBounds(s);
  }

  lemma StripBounds(s: string) returns (i: nat, j: nat)
    ensures i <= j <= |s| && Strip(s) == s[i..j] && AllSpace(s[..i]) && AllSpace(s[j..])
    ensures i < j ==> !IsSpace(s[i]) && !IsSpace(s[j - 1])
  {
    i := LeadingSpace(s);
    if i == |s| {
      j := i;
      assert s[..|s|] == s && s[|s|..] == [];
    } else {
      var n := TrailingSpace(s[i..]);
      j := |s| - n;
      assert s[i] == s[i..][0];
      SuffixSpace(s[i..], n);
      SuffixSlices(s, i, j);
      StripByCounts(s, i, n);
    }
  }

  lemma LeadingSpaceUnique(s: string, i: nat)
    requires i <= |s| && AllSpace(s[..i]) && (i == |s| || !IsSpace(s[i]))
    ensures LeadingSpace(s) == i
  {
    PrefixSpace(s, LeadingSpace(s));
    PrefixSpace(s, i);
  }

  lemma TrailingSpaceUnique(s: string, n: nat)
    requires n <= |s| && AllSpace(s[|s| - n..]) && (n == |s| || !IsSpace(s[|s| - n - 1]))
    ensures TrailingSpace(s) == n
  {
    SuffixSpace(s, TrailingSpace(s));
    SuffixSpace(s, n);
  }

  lemma PrefixSpace(s: string, i: nat)
    requires i <= |s| && AllSpace(s[..i])
    ensures forall k :: 0 <= k < i ==> IsSpace(s[k])
  {
    assert forall k :: 0 <= k < i ==> s[..i][k] == s[k];
  }

  lemma SuffixSpace(s: string, n: nat)
    requires n <= |s| && AllSpace(s[|s| - n..])
    ensures forall k :: |s| - n <= k < |s| ==> IsSpace(s[k])
  {
    assert forall k :: |s| - n <= k < |s| ==> s[|s| - n..][k - (|s| - n)] == s[k];
  }

  lemma SuffixSlices<T>(s: seq<T>, i: nat, j: nat)
    requires i < j <= |s|
    ensures |s[i..]| - (|s| - j) == j - i
    ensures s[i..][j - i..] == s[j..] && s[i..][j - i - 1] == s[j - 1]
  {
  }

  /** Strip is pinned down by that: the slice between leading and trailing
      white space that starts and ends with a non-space is what it keeps. */
  lemma StripUnique(s: string, i: nat, j: nat)
    requires i <= j <= |s| && AllSpace(s[..i]) && AllSpace(s[j..])
    requires i == j || (!IsSpace(s[i]) && !IsSpace(s[j - 1]))
    ensures Strip(s) == s[i..j]
  {
    if i == j {
      AllSpaceAppend(s[..i], s[j..]);
      assert s == s[..i] + s[j..];
    } else {
      StripUniqueInner(s, i, j);
    }
  }

  lemma StripUniqueInner(s: string, i: nat, j: nat)
    requires i < j <= |s| && AllSpace(s[..i]) && AllSpace(s[j..])
    requires !IsSpace(s[i]) && !IsSpace(s[j - 1])
    ensures Strip(s) == s[i..j]
  {
    LeadingSpaceUnique(s, i);
    SuffixSlices(s, i, j);
    TrailingSpaceUnique(s[i..], |s| - j);
    StripByCounts(s, i, |s| - j);
  }

  lemma StripByCounts(s: string, i: nat, n: nat)
    requires i < |s| && LeadingSpace(s) == i && TrailingSpace(s[i..]) == n
    ensures Strip(s) == s[i..|s| - n]
  {
  }

  lemma PaddedSlices<T>(pre: seq<T>, s: seq<T>, post: seq<T>, i: nat, j: nat)
    requires i <= j <= |s|
    ensures (pre + s + post)[..|pre| + i] == pre + s[..i]
    ensures (pre + s + post)[|pre| + j..] == s[j..] + post
    ensures (pre + s + post)[|pre| + i..|pre| + j] == s[i..j]
    ensures i < j ==> (pre + s + post)[|pre| + i] == s[i] && (pre + s + post)[|pre| + j - 1] == s[j - 1]
  {
  }

  /** `(pre + s + post).strip() == s.strip()` for white-space padding: the
      tolerance `int()` relies on. */
  lemma StripPadded(pre: string, s: string, post: string)
    requires AllSpace(pre) && AllSpace(post)
    ensures Strip(pre + s + post) == Strip(s)
  {
    var i, j := StripBounds(s);
    PaddedSlices(pre, s, post, i, j);
    AllSpaceAppend(pre, s[..i]);
    AllSpaceAppend(s[j..], post);
    StripUnique(pre + s + post, |pre| + i, |pre| + j);
  }

  /** A string that already starts and ends with a non-space is left alone. */
  lemma StripKeepsTrimmed(s: string)
    requires |s| > 0 && !IsSpace(s[0]) && !IsSpace(s[|s| - 1])
    ensures Strip(s) == s
  {
  }

  function LowerChar(c: char): char {
    if 'A' <= c <= 'Z' then (c as int + 32) as char else c
  }

  /** `s.lower()` on ASCII letters. */
  function Lower(s: string): (r: string)
    ensures |r| == |s| && forall i :: 0 <= i < |s| ==> r[i] == LowerChar(s[i])
  {
    seq(|s|, i requires 0 <= i < |s| => LowerChar(s[i]))
  }

  /** The position of the first occurrence of `c` in `s`. */
  function IndexOf(s: string, c: char): (i: nat)
    requires c in s
    ensures i < |s| && s[i] == c && c !in s[..i]
  {
    if s[0] == c then 0 else 1 + IndexOf(s[1..], c)
  }

  /** `sep.join(parts)` for a one-character separator. */
  function Join(parts: seq<string>, sep: char): string
    requires |parts| > 0
  {
    if |parts| == 1 then parts[0] else parts[0] + [sep] + Join(parts[1..], sep)
  }

  /** `s.split(sep)`: the pieces between separators, empty pieces included. */
  function Split(s: string, sep: char): (parts: seq<string>)
    ensures |parts| > 0
    ensures Join(parts, sep) == s
    ensures forall p :: p in parts ==> sep !in p
    decreases |s|
  {
    if sep in s then
      var i := IndexOf(s, sep);
      var rest := Split(s[i + 1..], sep);
      assert s == s[..i] + [sep] + s[i + 1..];
      [s[..i]] + rest
    else
      [s]
  }

  lemma IndexOfAfterPrefix(p: string, sep: char, t: string)
    requires sep !in p
    ensures sep in p + [sep] + t
    ensures IndexOf(p + [sep] + t, sep) == |p|
  {
    var s := p + [sep] + t;
    assert s[|p|] == sep;
    assert s[..|p|] == p;
  }

  /** Splitting undoes joining, as long as no piece holds the separator. */
  lemma {:induction false} SplitJoin(parts: seq<string>, sep: char)
    requires |parts| > 0
    requires forall p :: p in parts ==> sep !in p
    ensures Split(Join(parts, sep), sep) == parts
    decreases |parts|
  {
    if |parts| > 1 {
      var t := Join(parts[1..], sep);
      IndexOfAfterPrefix(parts[0], sep, t);
      var s := parts[0] + [sep] + t;
      assert s[..|parts[0]|] == parts[0];
      assert s[|parts[0]| + 1..] == t;
      SplitJoin(parts[1..], sep);
      assert parts == [parts[0]] + parts[1..];
    }
  }

  predicate IsDigit(c: char) {
    '0' <= c <= '9'
  }

  /** A run of decimal digits as `int()` accepts it: at least one digit, and an
      underscore only between two digits (`1_000`). */
  predicate IsDigitRun(s: string) {
    && |s| > 0
    && IsDigit(s[0])
    && forall i :: 0 <= i < |s| ==> IsDigit(s[i]) || (s[i] == '_' && i + 1 < |s| && IsDigit(s[i + 1]))
  }

  /** The number a digit run denotes, underscores ignored. */
  function DigitsValue(s: string): nat
  {
    if s == [] then 0
    else
      var last := s[|s| - 1];
      if IsDigit(last) then DigitsValue(s[..|s| - 1]) * 10 + (last as int - '0' as int)
      else DigitsValue(s[..|s| - 1])
  }

  /** What `int()` accepts once the white space is stripped: a digit run,
      optionally signed. */
  predicate IsNumeral(t: string) {
    IsDigitRun(t) || (|t| > 0 && (t[0] == '+' || t[0] == '-') && IsDigitRun(t[1..]))
  }

  /** `int(t)` for text with no white space around it. */
  function ParseNumeral(t: string): (r: Option<int>)
    ensures r.Some? <==> IsNumeral(t)
    ensures r.Some? && IsDigitRun(t) ==> r.value == DigitsValue(t)
    ensures r.Some? && t[0] == '-' ==> r.value + DigitsValue(t[1..]) == 0
    ensures r.Some? && t[0] == '+' ==> r.value == DigitsValue(t[1..])
  {
    if |t| > 0 && (t[0] == '+' || t[0] == '-') then
      if IsDigitRun(t[1..]) then
        var n: int := DigitsValue(t[1..]);
        var v: int := if t[0] == '-' then -n else n;
        Some(v)
      else None
    else if IsDigitRun(t) then Some(DigitsValue(t))
    else None
  }

  /** `int(s)` in base 10; None where Python raises ValueError. */
  function ParseInt(s: string): (r: Option<int>)
    ensures r.Some? <==> IsNumeral(Strip(s))
    ensures r.Some? && IsDigitRun(Strip(s)) ==> r.value == DigitsValue(Strip(s))
    ensures r.Some? && Strip(s)[0] == '-' ==> r.value + DigitsValue(Strip(s)[1..]) == 0
    ensures r.Some? && Strip(s)[0] == '+' ==> r.value == DigitsValue(Strip(s)[1..])
  {
    ParseNumeral(Strip(s))
  }

  /** `int()` ignores white space around the number. */
  lemma ParseIntPadded(pre: string, s: string, post: string)
    requires AllSpace(pre) && AllSpace(post)
    ensures ParseInt(pre + s + post) == ParseInt(s)
  {
    StripPadded(pre, s, post);
  }

  function DigitChar(d: nat): (c: char)
    requires d < 10
    ensures IsDigit(c) && c as int - '0' as int == d
  {
    ('0' as int + d) as char
  }

  /** The decimal digits of a natural number, most significant first. */
  function ShowNat(n: nat): (s: string)
    ensures |s| > 0 && forall i :: 0 <= i < |s| ==> IsDigit(s[i])
  {
    if n < 10 then [DigitChar(n)] else ShowNat(n / 10) + [DigitChar(n % 10)]
  }

  /** `str(n)` for an integer. */
  function Show(n: int): (s: string)
    ensures |s| > 0 && IsDigit(s[|s| - 1])
    ensures forall i :: 0 <= i < |s| ==> IsDigit(s[i]) || (i == 0 && s[i] == '-')
  {
    if n < 0 then "-" + ShowNat(-n) else ShowNat(n)
  }

  lemma {:induction false} DigitsValueShowNat(n: nat)
    ensures DigitsValue(ShowNat(n)) == n
  {
    if n >= 10 {
      var s := ShowNat(n);
      assert s[..|s| - 1] == ShowNat(n / 10);
      DigitsValueShowNat(n / 10);
    }
  }

  /** `int(str(n)) == n`: reading back what was written gives the number. */
  lemma ParseIntShow(n: int)
    ensures ParseInt(Show(n)) == Some(n)
  {
    var s := Show(n);
    StripKeepsTrimmed(s);
    if n < 0 {
      assert s[1..] == ShowNat(-n);
      DigitsValueShowNat(-n);
      assert IsDigitRun(ShowNat(-n));
    } else {
      DigitsValueShowNat(n);
      assert IsDigitRun(ShowNat(n));
    }
  }
}
