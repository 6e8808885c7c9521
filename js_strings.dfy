/** The parts of JavaScript's string semantics the screens rely on: the white-space
    class (what `String.prototype.trim` strips and what `\s` matches), prefix and
    suffix tests, replacing the first occurrence of a literal, removing every match
    of a literal pattern (`replace(/p/g, "")`), decimal rendering of naturals, and
    the `length` of a string. A Dafny `char` is one Unicode scalar value, so a
    character outside the Basic Multilingual Plane, which JavaScript stores as two
    UTF-16 code units, is one `char` here; `JsLength` counts code units. */
module JsStrings {
  import opened Wrappers

  /** LineTerminator of ECMAScript: LF, CR, LINE SEPARATOR, PARAGRAPH SEPARATOR.
      The regular-expression `.` matches every character except these. */
  predicate IsLineTerminator(c: char) {
    c == '\n' || c == '\r' || c == '\U{2028}' || c == '\U{2029}'
  }

  /** WhiteSpace or LineTerminator of ECMAScript: the characters `trim()` removes
      and `\s` matches (tab, vertical tab, form feed, space, no-break space, BOM,
      the Unicode space separators, and the line terminators). */
  predicate IsWhiteSpace(c: char) {
    || c == '\t' || c == '\U{000B}' || c == '\U{000C}' || c == ' ' || c == '\U{00A0}'
    || c == '\U{FEFF}' || c == '\U{1680}' || ('\U{2000}' <= c <= '\U{200A}')
    || c == '\U{202F}' || c == '\U{205F}' || c == '\U{3000}'
    || IsLineTerminator(c)
  }

  /** Every character is white space: the test `!s.trim()` the input handlers
      make before sending (see `TrimEmptyIffBlank`). */
  predicate IsBlank(s: string) {
    forall i | 0 <= i < |s| :: IsWhiteSpace(s[i])
  }

  /** `s` with its leading white space removed. */
  function TrimStart(s: string): (r: string)
    ensures |r| <= |s| && r == s[|s| - |r|..]
    ensures IsBlank(s[..|s| - |r|])
    ensures r == [] || !IsWhiteSpace(r[0])
  {
    if |s| > 0 && IsWhiteSpace(s[0]) then
      var r := TrimStart(s[1..]);
      assert s[..|s| - |r|] == [s[0]] + s[1..][..|s[1..]| - |r|];
      BlankAppend([s[0]], s[1..][..|s[1..]| - |r|]);
      r
    else s
  }

  /** `s` with its trailing white space removed. */
  function TrimEnd(s: string): (r: string)
    ensures |r| <= |s| && r == s[..|r|]
    ensures IsBlank(s[|r|..])
    ensures r == [] || !IsWhiteSpace(r[|r| - 1])
  {
    if |s| > 0 && IsWhiteSpace(s[|s| - 1]) then
      var init := s[..|s| - 1];
      var r := TrimEnd(init);
      assert s[|r|..] == init[|r|..] + [s[|s| - 1]];
      BlankAppend(init[|r|..], [s[|s| - 1]]);
      r
    else s
  }

  /** `String.prototype.trim`. */
  function Trim(s: string): string {
    TrimEnd(TrimStart(s))
  }

  /** `s.trim()` is the empty (falsy) string exactly when `s` is blank. */
  lemma TrimEmptyIffBlank(s: string)
    ensures Trim(s) == "" <==> IsBlank(s)
  {
    var t := TrimStart(s);
    if Trim(s) == "" {
      assert t[0..] == t;
      var k := |s| - |t|;
      assert s == s[..k] + t;
      BlankAppend(s[..k], t);
    }
  }

  /** Two blank strings make a blank string. */
  lemma BlankAppend(a: string, b: string)
    requires IsBlank(a) && IsBlank(b)
    ensures IsBlank(a + b)
  {
    forall i | 0 <= i < |a + b| ensures IsWhiteSpace((a + b)[i]) {
      if i >= |a| {
        assert (a + b)[i] == b[i - |a|];
      }
    }
  }

  /** Trimming never leaves white space at either end. */
  lemma TrimHasNoOuterWhiteSpace(s: string)
    ensures Trim(s) == [] || (!IsWhiteSpace(Trim(s)[0]) && !IsWhiteSpace(Trim(s)[|Trim(s)| - 1]))
  {
    var t := TrimStart(s);
    var r := TrimEnd(t);
    if r != [] {
      assert r[0] == t[0];
    }
  }

  predicate StartsWith(s: string, prefix: string) {
    |prefix| <= |s| && s[..|prefix|] == prefix
  }

  predicate EndsWith(s: string, suffix: string) {
    |suffix| <= |s| && s[|s| - |suffix|..] == suffix
  }

  /** `pattern` occurs in `s` starting at index `i`. */
  predicate OccursAt(s: string, pattern: string, i: nat) {
    i + |pattern| <= |s| && s[i..i + |pattern|] == pattern
  }

  /** The first index at or after `from` where `pattern` occurs (`indexOf`). */
  function IndexOf(s: string, pattern: string, from: nat): (r: Option<nat>)
    decreases |s| + 1 - from
    ensures r.Some? ==> from <= r.value && OccursAt(s, pattern, r.value)
    ensures r.Some? ==> forall j: nat | from <= j < r.value :: !OccursAt(s, pattern, j)
    ensures r.None? ==> forall j: nat | from <= j :: !OccursAt(s, pattern, j)
  {
    if from + |pattern| > |s| then None
    else if s[from..from + |pattern|] == pattern then Some(from)
    else IndexOf(s, pattern, from + 1)
  }

  /** `s.replace(pattern, replacement)` with a string pattern: only the first
      occurrence is replaced. */
  function ReplaceFirst(s: string, pattern: string, replacement: string): (r: string)
  {
    match IndexOf(s, pattern, 0)
    case None => s
    case Some(i) => s[..i] + replacement + s[i + |pattern|..]
  }

  /** `ReplaceFirst` either leaves `s` alone because `pattern` does not occur, or
      splices the replacement over the leftmost occurrence. */
  lemma ReplaceFirstSpec(s: string, pattern: string, replacement: string)
    ensures (forall j: nat :: !OccursAt(s, pattern, j)) ==> ReplaceFirst(s, pattern, replacement) == s
    ensures forall i: nat :: OccursAt(s, pattern, i) && (forall j: nat | j < i :: !OccursAt(s, pattern, j)) ==>
      ReplaceFirst(s, pattern, replacement) == s[..i] + replacement + s[i + |pattern|..]
  {
  }

  /** `s.replace(/pattern/g, "")` for a literal, non-empty pattern: scanning left to
      right, each non-overlapping occurrence is deleted. */
  function RemoveAll(s: string, pattern: string): (r: string)
    requires pattern != []
    ensures |r| <= |s|
  {
    if s == [] then []
    else if OccursAt(s, pattern, 0) then RemoveAll(s[|pattern|..], pattern)
    else [s[0]] + RemoveAll(s[1..], pattern)
  }

  /** After `replace(/[*]/g, '')` no asterisk is left. */
  lemma {:induction false} RemoveStarsLeavesNoStar(s: string)
    ensures forall i | 0 <= i < |RemoveAll(s, "*")| :: RemoveAll(s, "*")[i] != '*'
    decreases |s|
  {
    if s != [] {
      if OccursAt(s, "*", 0) {
        RemoveStarsLeavesNoStar(s[1..]);
      } else {
        RemoveStarsLeavesNoStar(s[1..]);
        assert s[0] != '*' by { assert s[0..1] == [s[0]]; }
      }
    }
  }

  /** After `replace(/[*]/g, '')` the characters that are not asterisks are all
      still there, in their order. */
  lemma {:induction false} RemoveStarsKeepsOthers(s: string)
    ensures RemoveAll(s, "*") == NonStars(s)
    decreases |s|
  {
    if s != [] {
      RemoveStarsKeepsOthers(s[1..]);
      assert OccursAt(s, "*", 0) <==> s[0] == '*' by { assert s[0..1] == [s[0]]; }
    }
  }

  /** The characters of `s` other than `*`, in order. */
  function NonStars(s: string): string {
    if s == [] then [] else (if s[0] == '*' then [] else [s[0]]) + NonStars(s[1..])
  }

  /** `**` occurs at `i` exactly when the characters at `i` and `i + 1` are `*`. */
  lemma PairAt(x: string, i: nat)
    ensures OccursAt(x, "**", i) <==> i + 1 < |x| && x[i] == '*' && x[i + 1] == '*'
  {
    if i + 1 < |x| {
      assert x[i..i + 2] == [x[i], x[i + 1]];
    }
  }

  /** After `replace(/[*][*]/g, '')` no two asterisks are adjacent: the leftmost
      scan leaves a lone `*` only when the next character is not a `*`. The second
      conclusion (the first character survives when it is not `*`) carries the
      induction. */
  lemma {:induction false} RemovePairsLeavesNoPair(s: string)
    ensures forall i: nat :: !OccursAt(RemoveAll(s, "**"), "**", i)
    ensures s != [] && s[0] != '*' ==> RemoveAll(s, "**") != [] && RemoveAll(s, "**")[0] == s[0]
    decreases |s|
  {
    PairAt(s, 0);
    if s == [] {
    } else if OccursAt(s, "**", 0) {
      RemovePairsLeavesNoPair(s[2..]);
    } else {
      var tail := RemoveAll(s[1..], "**");
      RemovePairsLeavesNoPair(s[1..]);
      var r := RemoveAll(s, "**");
      assert r == [s[0]] + tail;
      forall i: nat ensures !OccursAt(r, "**", i) {
        PairAt(r, i);
        if i > 0 {
          PairAt(tail, i - 1);
        } else if |s| > 1 {
          PairAt(s[1..], 0);
        }
      }
    }
  }

  // ---------------------------------------------------------------------------
  // String length
  // ---------------------------------------------------------------------------

  /** A character that UTF-16 stores as a surrogate pair. */
  predicate IsAstral(c: char) {
    c as int >= 0x1_0000
  }

  /** `s.length`: the number of UTF-16 code units, two for each astral
      character. */
  function JsLength(s: string): (n: nat)
    ensures |s| <= n <= 2 * |s|
    ensures n == 0 <==> s == ""
    decreases |s|
  {
    if s == [] then 0 else (if IsAstral(s[0]) then 2 else 1) + JsLength(s[1..])
  }

  /** Without astral characters the code units are the characters. */
  lemma {:induction false} JsLengthWithoutAstral(s: string)
    requires forall i | 0 <= i < |s| :: !IsAstral(s[i])
    ensures JsLength(s) == |s|
    decreases |s|
  {
    if s != [] {
      assert forall i | 0 <= i < |s[1..]| :: s[1..][i] == s[i + 1];
      JsLengthWithoutAstral(s[1..]);
    }
  }

  /** Every astral character adds two code units. */
  lemma {:induction false} JsLengthAllAstral(s: string)
    requires forall i | 0 <= i < |s| :: IsAstral(s[i])
    ensures JsLength(s) == 2 * |s|
    decreases |s|
  {
    if s != [] {
      assert forall i | 0 <= i < |s[1..]| :: s[1..][i] == s[i + 1];
      JsLengthAllAstral(s[1..]);
    }
  }

  // ---------------------------------------------------------------------------
  // Decimal rendering of naturals (template literals such as `part-${index}`)
  // ---------------------------------------------------------------------------

  predicate IsDigit(c: char) {
    '0' <= c <= '9'
  }

  predicate AllDigits(s: string) {
    forall i | 0 <= i < |s| :: IsDigit(s[i])
  }

  function DigitChar(d: nat): (c: char)
    requires d < 10
    ensures IsDigit(c) && c as int - '0' as int == d
  {
    ('0' as int + d) as char
  }

  /** The decimal numeral of `n`, as JavaScript writes an integer-valued number. */
  function NatToString(n: nat): (r: string)
    ensures |r| > 0 && AllDigits(r)
    decreases n
  {
    if n < 10 then [DigitChar(n)] else NatToString(n / 10) + [DigitChar(n % 10)]
  }

  /** The value of a string of decimal digits. */
  function DigitsValue(s: string): nat
    requires AllDigits(s)
  {
    if s == [] then 0 else 10 * DigitsValue(s[..|s| - 1]) + (s[|s| - 1] as int - '0' as int)
  }

  /** Reading the numeral back gives the number. */
  lemma {:induction false} NatToStringRoundTrip(n: nat)
    ensures DigitsValue(NatToString(n)) == n
    decreases n
  {
    if n >= 10 {
      NatToStringRoundTrip(n / 10);
      var r := NatToString(n);
      assert r[..|r| - 1] == NatToString(n / 10);
    }
  }

  /** Distinct numbers have distinct numerals. */
  lemma NatToStringInjective(a: nat, b: nat)
    ensures NatToString(a) == NatToString(b) ==> a == b
  {
    NatToStringRoundTrip(a);
    NatToStringRoundTrip(b);
  }

  // ---------------------------------------------------------------------------
  // Case mapping
  // ---------------------------------------------------------------------------

  /** `String.prototype.toLowerCase` on ASCII letters: capitals become small
      letters and every other character is kept. */
  function LowerChar(c: char): char {
    if 'A' <= c <= 'Z' then (c as int + 32) as char else c
  }

  function Lower(s: string): (r: string)
    ensures |r| == |s| && forall i | 0 <= i < |s| :: r[i] == LowerChar(s[i])
  {
    seq(|s|, i requires 0 <= i < |s| => LowerChar(s[i]))
  }

  /** Lowercasing leaves a string without capital letters unchanged. */
  lemma LowerUnchanged(s: string)
    requires forall i | 0 <= i < |s| :: !('A' <= s[i] <= 'Z')
    ensures Lower(s) == s
  {
  }

}
