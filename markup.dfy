/** The chat-markup tokeniser the three chat screens share: a message is split with
    the capturing regular expression `([*][*].*?[*][*]|[*].*?[*])`, empty pieces are
    dropped, and each piece is classified as a heading (`**…**`), an emphasis
    (`*…*`) or plain text. The mobile `parseMarkdown` (defined twice, with the same
    text, in the incident-detail and chatbot screens) and the web chat's inline
    rendering are both modelled here. */
module Markup {
  import opened Wrappers
  import opened JsStrings
  import Sequences

  // ---------------------------------------------------------------------------
  // The regular expression as a leftmost, shortest-match scanner
  // ---------------------------------------------------------------------------

  /** The continuation `.*?[*][*]` tried from index `k`: the lazy `.*?` first tries
      to close at `k`, and only then consumes one character, which `.` allows
      unless it is a line terminator. The result is the end of the match. */
  function MatchDoubleFrom(s: string, k: nat): (r: Option<nat>)
    decreases |s| - k
    ensures r.Some? ==> k + 2 <= r.value <= |s| && s[r.value - 2] == '*' && s[r.value - 1] == '*'
    ensures r.Some? ==> forall i | k <= i < r.value - 2 :: !IsLineTerminator(s[i]) && !(s[i] == '*' && s[i + 1] == '*')
  {
    if k + 2 <= |s| && s[k] == '*' && s[k + 1] == '*' then Some(k + 2)
    else if k < |s| && !IsLineTerminator(s[k]) then MatchDoubleFrom(s, k + 1)
    else None
  }

  /** The continuation `.*?[*]` tried from index `k`. */
  function MatchSingleFrom(s: string, k: nat): (r: Option<nat>)
    decreases |s| - k
    ensures r.Some? ==> k + 1 <= r.value <= |s| && s[r.value - 1] == '*'
    ensures r.Some? ==> forall i | k <= i < r.value - 1 :: !IsLineTerminator(s[i]) && s[i] != '*'
  {
    if k < |s| && s[k] == '*' then Some(k + 1)
    else if k < |s| && !IsLineTerminator(s[k]) then MatchSingleFrom(s, k + 1)
    else None
  }

  /** The whole pattern matched at index `q` (a sticky match, as the split
      algorithm performs it): the `**…**` alternative when it succeeds, otherwise
      the `*…*` alternative. */
  function MatchAt(s: string, q: nat): (r: Option<nat>)
    ensures r.Some? ==> q + 2 <= r.value <= |s| && IsMarked(s[q..r.value])
    ensures r.Some? ==> forall i | q <= i < r.value :: !IsLineTerminator(s[i])
    ensures (q + 1 < |s| && s[q] == '*' && s[q + 1] == '*' && MatchDoubleFrom(s, q + 2).Some?) ==> r == MatchDoubleFrom(s, q + 2)
    ensures (q >= |s| || s[q] != '*') ==> r.None?
  {
    if q + 1 < |s| && s[q] == '*' && s[q + 1] == '*' && MatchDoubleFrom(s, q + 2).Some? then MatchDoubleFrom(s, q + 2)
    else if q < |s| && s[q] == '*' then MatchSingleFrom(s, q + 1)
    else None
  }

  /** A piece that begins and ends with an asterisk and has at least two
      characters: the shape of every piece the pattern captures. */
  predicate IsMarked(p: string) {
    |p| >= 2 && p[0] == '*' && p[|p| - 1] == '*'
  }

  /** The split algorithm of `String.prototype.split` with a regular expression,
      from the start `p` of the current piece and the scan position `q`: where the
      pattern matches at `q` the text before it and the captured match are emitted
      and scanning resumes after the match; otherwise `q` advances. The rest of the
      text is the last piece. */
  function SplitFrom(s: string, p: nat, q: nat): (r: seq<string>)
    requires p <= q <= |s|
    decreases |s| - q
    ensures |r| % 2 == 1
    ensures forall i | 0 <= i < |r| && i % 2 == 1 :: IsMarked(r[i])
  {
    if q >= |s| then [s[p..]]
    else match MatchAt(s, q)
      case None => SplitFrom(s, p, q + 1)
      case Some(e) => [s[p..q], s[q..e]] + SplitFrom(s, e, e)
  }

  /** `text.split(/([*][*].*?[*][*]|[*].*?[*])/g)`: the text between matches at even
      indices, the captured matches at odd indices. */
  function Split(text: string): seq<string> {
    SplitFrom(text, 0, 0)
  }

  predicate NonEmpty(p: string) {
    |p| > 0
  }

  /** `… .filter(Boolean)`: the non-empty pieces. */
  function Pieces(text: string): seq<string> {
    Sequences.Filter(NonEmpty, Split(text))
  }

  /** The pieces from `p` on put back together are the text from `p` on. */
  lemma {:induction false} SplitFromConcat(s: string, p: nat, q: nat)
    requires p <= q <= |s|
    ensures Sequences.Concat(SplitFrom(s, p, q)) == s[p..]
    decreases |s| - q
  {
    if q >= |s| {
      assert SplitFrom(s, p, q) == [s[p..]];
      assert [s[p..]][1..] == [];
    } else {
      match MatchAt(s, q)
      case None =>
        SplitFromConcat(s, p, q + 1);
      case Some(e) =>
        SplitFromConcat(s, e, e);
        var head := [s[p..q], s[q..e]];
        assert head[1..][1..] == [];
        Sequences.ConcatAppend(head, SplitFrom(s, e, e));
        assert s[p..] == s[p..q] + s[q..e] + s[e..];
    }
  }

  /** Round trip: the pieces of a message, concatenated, are the message. */
  lemma PiecesConcat(text: string)
    ensures Sequences.Concat(Pieces(text)) == text
    ensures forall p | p in Pieces(text) :: p != ""
  {
    SplitFromConcat(text, 0, 0);
    Sequences.ConcatSkipsEmpty(NonEmpty, Split(text));
  }

  // ---------------------------------------------------------------------------
  // parseMarkdown (mobile)
  // ---------------------------------------------------------------------------

  datatype Kind = Heading | Emphasis | Normal

  /** One element of `parseMarkdown`'s result: `{ id, text, type }`. */
  datatype Segment = Segment(id: string, text: string, kind: Kind)

  predicate IsHeadingPiece(p: string) {
    StartsWith(p, "**") && EndsWith(p, "**")
  }

  predicate IsEmphasisPiece(p: string) {
    StartsWith(p, "*") && EndsWith(p, "*") && !IsHeadingPiece(p)
  }

  /** The element produced for piece `part` at position `index`. */
  function Classify(part: string, index: nat): Segment {
    var id := "part-" + NatToString(index);
    if IsHeadingPiece(part) then Segment(id, RemoveAll(part, "**"), Heading)
    else if IsEmphasisPiece(part) then Segment(id, RemoveAll(part, "*"), Emphasis)
    else Segment(id, part, Normal)
  }

  /** `parseMarkdown(text)`: an empty (falsy) text gives no segments; otherwise one
      segment per piece, in order. */
  function ParseMarkdown(text: string): (r: seq<Segment>)
    ensures text == "" ==> r == []
    ensures text != "" ==> |r| == |Pieces(text)|
  {
    if text == "" then []
    else
      var parts := Pieces(text);
      seq(|parts|, i requires 0 <= i < |parts| => Classify(parts[i], i))
  }

  /** What each segment says about its piece: headings exactly for the pieces
      wrapped in `**` (with every `**` dropped), emphasis exactly for the other
      pieces wrapped in `*` (with every `*` dropped), and the piece itself
      otherwise. */
  lemma ParseMarkdownKinds(text: string, i: nat)
    requires text != "" && i < |Pieces(text)|
    ensures var part, seg := Pieces(text)[i], ParseMarkdown(text)[i];
      && (seg.kind == Heading <==> IsHeadingPiece(part))
      && (seg.kind == Emphasis <==> StartsWith(part, "*") && EndsWith(part, "*") && !IsHeadingPiece(part))
      && (seg.kind == Heading ==> seg.text == RemoveAll(part, "**"))
      && (seg.kind == Emphasis ==> seg.text == RemoveAll(part, "*"))
      && (seg.kind == Normal ==> seg.text == part)
      && seg.id == "part-" + NatToString(i)
  {
  }

  /** Heading text keeps no `**` and emphasis text keeps no `*`. */
  lemma FormattedTextIsClean(text: string, i: nat)
    requires text != "" && i < |ParseMarkdown(text)|
    ensures ParseMarkdown(text)[i].kind == Heading ==> forall j: nat :: !OccursAt(ParseMarkdown(text)[i].text, "**", j)
    ensures ParseMarkdown(text)[i].kind == Emphasis ==> forall j | 0 <= j < |ParseMarkdown(text)[i].text| :: ParseMarkdown(text)[i].text[j] != '*'
  {
    var part := Pieces(text)[i];
    RemovePairsLeavesNoPair(part);
    RemoveStarsLeavesNoStar(part);
  }

  /** Segment ids are pairwise distinct (React keys). */
  lemma {:induction false} ParseMarkdownIdsDistinct(text: string, i: nat, j: nat)
    requires i < j < |ParseMarkdown(text)|
    ensures ParseMarkdown(text)[i].id != ParseMarkdown(text)[j].id
  {
    var a, b := NatToString(i), NatToString(j);
    if "part-" + a == "part-" + b {
      assert a == ("part-" + a)[5..];
      assert b == ("part-" + b)[5..];
      NatToStringInjective(i, j);
    }
  }

  /** Every piece the pattern captured renders formatted, never as plain text. */
  lemma CapturedPiecesAreFormatted(text: string, i: nat, index: nat)
    requires i < |Split(text)| && i % 2 == 1
    ensures Classify(Split(text)[i], index).kind != Normal
  {
    var p := Split(text)[i];
    assert p[..1] == "*" && p[|p| - 1..] == "*";
  }

  // ---------------------------------------------------------------------------
  // The web chat's rendering of one history entry
  // ---------------------------------------------------------------------------

  /** How a piece is rendered on the web: `h2` for a `**` piece, `h3` for a `*`
      piece, `span` otherwise, with the text shown inside. */
  datatype WebKind = H2 | H3 | Span

  datatype RenderedEntry = RenderedEntry(fromUser: bool, parts: seq<(WebKind, string)>)

  /** The double-asterisk test comes first and the single-asterisk test is only
      reached when it fails. */
  function WebPart(part: string): (WebKind, string) {
    if StartsWith(part, "**") && EndsWith(part, "**") then (H2, RemoveAll(part, "**"))
    else if StartsWith(part, "*") && EndsWith(part, "*") then (H3, RemoveAll(part, "*"))
    else (Span, part)
  }

  /** The text shown for an entry: the first `User:` and then the first
      `Saathi AI:` are removed. */
  function DisplayText(entry: string): string {
    ReplaceFirst(ReplaceFirst(entry, "User:", ""), "Saathi AI:", "")
  }

  /** One history entry as the web chat renders it: right-aligned exactly when it
      starts with `User:`, and split and classified like `parseMarkdown`. */
  function RenderEntry(entry: string): (r: RenderedEntry)
    ensures r.fromUser <==> StartsWith(entry, "User:")
    ensures |r.parts| == |Pieces(DisplayText(entry))|
  {
    var parts := Pieces(DisplayText(entry));
    RenderedEntry(StartsWith(entry, "User:"), seq(|parts|, i requires 0 <= i < |parts| => WebPart(parts[i])))
  }

  /** The web rendering and `parseMarkdown` agree piece by piece: `h2` is a
      heading, `h3` an emphasis and `span` normal text, with the same text. */
  lemma WebAgreesWithParseMarkdown(text: string, i: nat)
    requires text != "" && i < |Pieces(text)|
    ensures var w, seg := WebPart(Pieces(text)[i]), ParseMarkdown(text)[i];
      && (w.0 == H2 <==> seg.kind == Heading)
      && (w.0 == H3 <==> seg.kind == Emphasis)
      && (w.0 == Span <==> seg.kind == Normal)
      && w.1 == seg.text
  {
  }

  /** The prefix is removed when the entry starts with it. */
  lemma ReplacePrefix(entry: string, prefix: string)
    requires StartsWith(entry, prefix)
    ensures ReplaceFirst(entry, prefix, "") == entry[|prefix|..]
  {
    assert OccursAt(entry, prefix, 0);
  }

  /** Nothing is replaced when the pattern does not occur. */
  lemma ReplaceAbsent(s: string, pattern: string)
    requires forall j: nat :: !OccursAt(s, pattern, j)
    ensures ReplaceFirst(s, pattern, "") == s
  {
  }

  /** An occurrence in `[c] + s` past the first character is one in `s`. */
  lemma OccursAfterHead(c: char, s: string, pattern: string, j: nat)
    requires OccursAt([c] + s, pattern, j + 1)
    ensures OccursAt(s, pattern, j)
  {
    assert ([c] + s)[j + 1..j + 1 + |pattern|] == s[j..j + |pattern|];
  }

  /** The entry the web chat stores for a user's message, `"User: " + input`,
      shows as `" " + input` when the input itself holds no `Saathi AI:`. */
  lemma UserEntryDisplay(input: string)
    requires forall j: nat :: !OccursAt(input, "Saathi AI:", j)
    ensures DisplayText("User: " + input) == " " + input
  {
    var entry := "User: " + input;
    assert StartsWith(entry, "User:") by { assert entry[..5] == "User:"; }
    ReplacePrefix(entry, "User:");
    var rest := entry[5..];
    assert rest == [' '] + input;
    forall j: nat ensures !OccursAt(rest, "Saathi AI:", j) {
      if j == 0 {
        if |rest| >= 10 {
          assert rest[0..10][0] == rest[0] == ' ';
        }
      } else if OccursAt(rest, "Saathi AI:", j) {
        OccursAfterHead(' ', input, "Saathi AI:", j - 1);
      }
    }
    ReplaceAbsent(rest, "Saathi AI:");
  }

  /** The entry stored for a reply, `"Saathi AI: " + reply`, shows as `" " + reply`
      when the reply holds no `User:`. */
  lemma BotEntryDisplay(reply: string)
    requires forall j: nat :: !OccursAt(reply, "User:", j)
    ensures DisplayText("Saathi AI: " + reply) == " " + reply
  {
    var entry := "Saathi AI: " + reply;
    forall j: nat ensures !OccursAt(entry, "User:", j) {
      if j + 5 <= |entry| {
        assert entry[j..j + 5][0] == entry[j];
        if j < 11 {
          var prefix := "Saathi AI: ";
          assert entry[j] == prefix[j];
          assert prefix[j] in prefix;
          assert 'U' !in prefix;
          assert entry[j] != "User:"[0];
        } else {
          assert entry[j..j + 5] == reply[j - 11..j - 6];
          assert !OccursAt(reply, "User:", j - 11);
        }
      }
    }
    ReplaceAbsent(entry, "User:");
    assert StartsWith(entry, "Saathi AI:") by { assert entry[..10] == "Saathi AI:"; }
    ReplacePrefix(entry, "Saathi AI:");
    assert entry[10..] == " " + reply;
  }
}
