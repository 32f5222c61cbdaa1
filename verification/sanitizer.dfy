/** Clean-up of provider text with global regular-expression replacements: the `<think>` blocks and
    fenced code blocks removed by the review analysis (app/api/ai/analyze-review/route.ts), the
    `<think>` blocks removed by the report routes, and the inline markdown unwrapped by the PDF
    renderer (app/pdf/ReportPDF.tsx).

    A global replace scans left to right: where the pattern matches, the match is replaced and the
    scan resumes after it; elsewhere one character is kept. None of the patterns here can match the
    empty string. */
module Sanitizer {
  import opened Wrappers
  import opened JsText

  datatype Pattern =
    | ThinkBlock   // /<think>[\s\S]*?<\/think>/g            -> ""
    | FencedBlock  // /```[\s\S]*?```/g                      -> ""
    | Strong       // /(\*\*|__)(.*?)\1/g                    -> "$2"
    | Emphasis     // /(\*|_)(.*?)\1/g                       -> "$2"
    | InlineCode   // /`([^`]+)`/g                           -> "$1"
    | Link         // /\[([^\]]+)\]\(([^)]+)\)/g             -> "$1"

  /** A match at the start of the text: its length and what replaces it. */
  datatype Hit = Hit(len: nat, replacement: string)

  /** The characters a match of the pattern can start with. */
  predicate Opens(p: Pattern, c: char) {
    match p
    case ThinkBlock => c == '<'
    case FencedBlock => c == '`'
    case Strong => c == '*' || c == '_'
    case Emphasis => c == '*' || c == '_'
    case InlineCode => c == '`'
    case Link => c == '['
  }

  /** A delimiter, then the shortest run without a line terminator (`.*?`), then the same delimiter. */
  function Delimited(delim: string, s: string): (r: Option<Hit>)
    requires |delim| > 0 && StartsWith(s, delim)
    ensures r.Some? ==> |delim| < r.value.len <= |s|
  {
    match IndexOfFrom(delim, s, |delim|)
    case Some(j) =>
      if NoLineTerminator(s[|delim|..j]) then Some(Hit(j + |delim|, s[|delim|..j])) else None
    case None => None
  }

  /** The match of the pattern at the very start of `s`, if any, as the regular expression's
      backtracking finds it: lazy quantifiers stop at the first closing delimiter. */
  function MatchAt(p: Pattern, s: string): (r: Option<Hit>)
    ensures r.Some? ==> 0 < r.value.len <= |s|
    ensures (|s| == 0 || !Opens(p, s[0])) ==> r.None?
  {
    match p
    case ThinkBlock =>
      if !StartsWith(s, "<think>") then None
      else (match IndexOfFrom("</think>", s, 7)
            case Some(j) => Some(Hit(j + 8, ""))
            case None => None)
    case FencedBlock =>
      if !StartsWith(s, "```") then None
      else (match IndexOfFrom("```", s, 3)
            case Some(j) => Some(Hit(j + 3, ""))
            case None => None)
    case Strong =>
      if StartsWith(s, "**") then Delimited("**", s)
      else if StartsWith(s, "__") then Delimited("__", s)
      else None
    case Emphasis =>
      if |s| > 0 && (s[0] == '*' || s[0] == '_') then Delimited([s[0]], s) else None
    case InlineCode =>
      if |s| == 0 || s[0] != '`' then None
      else (match IndexOfFrom("`", s, 1)
            case Some(j) => if j >= 2 then Some(Hit(j + 1, s[1..j])) else None
            case None => None)
    case Link =>
      if |s| == 0 || s[0] != '[' then None
      else (match IndexOfFrom("]", s, 1)
            case Some(j) =>
              if j >= 2 && j + 1 < |s| && s[j + 1] == '(' then
                (match IndexOfFrom(")", s, j + 2)
                 case Some(k) => if k >= j + 3 then Some(Hit(k + 1, s[1..j])) else None
                 case None => None)
              else None
            case None => None)
  }

  /** `s.replace(pattern, replacement)` with the `g` flag. */
  function ReplaceAll(p: Pattern, s: string): string
    decreases |s|
  {
    if |s| == 0 then []
    else match MatchAt(p, s)
      case Some(h) => h.replacement + ReplaceAll(p, s[h.len..])
      case None => [s[0]] + ReplaceAll(p, s[1..])
  }

  /** Text in which the pattern cannot start a match passes through a global replace unchanged, and
      the replace carries on with what follows it. */
  lemma {:induction false} PlainPrefix(p: Pattern, x: string, z: string)
    requires forall i | 0 <= i < |x| :: !Opens(p, x[i])
    ensures ReplaceAll(p, x + z) == x + ReplaceAll(p, z)
  {
    if |x| > 0 {
      var c, rest := x[0], x[1..];
      assert x + z == [c] + (rest + z);
      KeepOne(p, c, rest + z);
      PlainPrefix(p, rest, z);
      assert [c] + (rest + ReplaceAll(p, z)) == x + ReplaceAll(p, z);
    } else {
      assert x + z == z;
    }
  }

  /** A character that cannot start a match is kept, and the replace goes on after it. */
  lemma KeepOne(p: Pattern, c: char, rest: string)
    requires !Opens(p, c)
    ensures ReplaceAll(p, [c] + rest) == [c] + ReplaceAll(p, rest)
  {
    assert ([c] + rest)[1..] == rest;
  }

  lemma PlainText(p: Pattern, s: string)
    requires forall i | 0 <= i < |s| :: !Opens(p, s[i])
    ensures ReplaceAll(p, s) == s
  {
    PlainPrefix(p, s, []);
    assert s + [] == s;
  }

  /** Where the pattern matches nowhere, a global replace changes nothing. */
  lemma {:induction false} NoMatchUnchanged(p: Pattern, s: string)
    requires forall i | 0 <= i <= |s| :: MatchAt(p, s[i..]).None?
    ensures ReplaceAll(p, s) == s
  {
    if |s| > 0 {
      assert s[0..] == s;
      forall i | 0 <= i <= |s[1..]| ensures MatchAt(p, s[1..][i..]).None? {
        assert s[1..][i..] == s[i + 1..];
      }
      NoMatchUnchanged(p, s[1..]);
    }
  }

  // ---------------------------------------------------------------------------------------------
  // The two clean-ups of provider text

  function StripThink(s: string): string {
    ReplaceAll(ThinkBlock, s)
  }

  /** What the review analysis hands to `JSON.parse`: think blocks removed, then fenced blocks removed
      (fences and their content alike), then trimmed. */
  function SanitizeReview(s: string): string {
    Trim(ReplaceAll(FencedBlock, StripThink(s)))
  }

  /** What the report routes keep: think blocks removed, then trimmed; code fences stay. */
  function SanitizeReport(s: string): string {
    Trim(StripThink(s))
  }

  /** A think block is removed up to its first closing tag, and the scan goes on after it. */
  lemma ThinkBlockRemoved(r: string, z: string)
    requires '<' !in r
    ensures StripThink("<think>" + r + "</think>" + z) == StripThink(z)
  {
    var s := "<think>" + r + "</think>" + z;
    var a := "<think>" + r;
    assert s == a + "</think>" + z;
    FirstOccurrenceAfter(a, "</think>", z, 7);
    assert StartsWith(s, "<think>") by {
      assert s[..7] == "<think>";
    }
    assert s[|a| + 8..] == z;
  }

  /** Without a closing tag, an opening tag is left in place: the lazy match needs its closing half. */
  lemma UnclosedThinkKept(s: string)
    requires forall j :: !OccursAt("</think>", s, j)
    ensures StripThink(s) == s
  {
    forall i | 0 <= i <= |s| ensures MatchAt(ThinkBlock, s[i..]).None? {
      forall j | 7 <= j ensures !OccursAt("</think>", s[i..], j) {
        if OccursAt("</think>", s[i..], j) {
          assert s[i..][j..j + 8] == s[i + j..i + j + 8];
          assert OccursAt("</think>", s, i + j);
        }
      }
    }
    NoMatchUnchanged(ThinkBlock, s);
  }

  /** The review clean-up deletes a fenced block together with its content: a reply that only wraps
      its JSON in a fence leaves nothing to parse. */
  lemma FencedPayloadDeleted(payload: string)
    requires '`' !in payload && '<' !in payload
    ensures SanitizeReview("```" + payload + "```") == ""
  {
    var s := "```" + payload + "```";
    PlainText(ThinkBlock, s);
    FirstOccurrenceAfter("```" + payload, "```", [], 3);
    assert s == "```" + payload + "```" + [];
    assert s[..3] == "```";
    assert MatchAt(FencedBlock, s) == Some(Hit(|s|, ""));
    assert s[|s|..] == [];
    assert ReplaceAll(FencedBlock, s) == "" + ReplaceAll(FencedBlock, []);
    assert AllWhite([]);
  }

  /** The review clean-up of a reasoning block followed by a bare JSON reply is that reply, trimmed. */
  lemma ReviewReplyAfterThinking(r: string, reply: string)
    requires '<' !in r && '<' !in reply && '`' !in reply
    ensures SanitizeReview("<think>" + r + "</think>" + reply) == Trim(reply)
  {
    ThinkBlockRemoved(r, reply);
    PlainText(ThinkBlock, reply);
    PlainText(FencedBlock, reply);
  }

  /** The report clean-up keeps code fences: text without think tags is only trimmed. */
  lemma ReportKeepsFences(s: string)
    requires '<' !in s
    ensures SanitizeReport(s) == Trim(s)
  {
    PlainText(ThinkBlock, s);
  }

  // ---------------------------------------------------------------------------------------------
  // Inline markdown of the PDF renderer

  /** `stripInlineMarkdown`: strong, emphasis, code and links are unwrapped in that order. */
  function StripInlineMarkdown(s: string): string {
    if s == "" then ""
    else ReplaceAll(Link, ReplaceAll(InlineCode, ReplaceAll(Emphasis, ReplaceAll(Strong, s))))
  }

  /** No markup character, no markup to remove. */
  predicate PlainInline(s: string) {
    forall i | 0 <= i < |s| :: s[i] !in "*_`["
  }

  lemma PlainInlineUnchanged(s: string)
    requires PlainInline(s)
    ensures StripInlineMarkdown(s) == s
  {
    PlainText(Strong, s);
    PlainText(Emphasis, s);
    PlainText(InlineCode, s);
    PlainText(Link, s);
  }

  /** `**x**` renders as `x`. */
  lemma StrongUnwrapped(x: string)
    requires PlainInline(x) && NoLineTerminator(x)
    ensures StripInlineMarkdown("**" + x + "**") == x
  {
    var s := "**" + x + "**";
    FirstOccurrenceAfter("**" + x, "**", [], 2);
    assert s == "**" + x + "**" + [];
    assert s[..2] == "**";
    assert s[2..|x| + 2] == x;
    assert Delimited("**", s) == Some(Hit(|s|, x));
    assert s[|s|..] == [];
    assert ReplaceAll(Strong, s) == x + ReplaceAll(Strong, []);
    assert x + [] == x;
    PlainText(Emphasis, x);
    PlainText(InlineCode, x);
    PlainText(Link, x);
  }

  /** `` `x` `` renders as `x` when `x` is non-empty. */
  lemma CodeUnwrapped(x: string)
    requires |x| > 0 && PlainInline(x)
    ensures StripInlineMarkdown("`" + x + "`") == x
  {
    var s := "`" + x + "`";
    PlainText(Strong, s);
    PlainText(Emphasis, s);
    FirstOccurrenceAfter("`" + x, "`", [], 1);
    assert s == "`" + x + "`" + [];
    assert s[1..|x| + 1] == x;
    assert s[|x| + 2..] == [];
    assert ReplaceAll(InlineCode, s) == x + ReplaceAll(InlineCode, []);
    assert x + [] == x;
    PlainText(Link, x);
  }

  /** `[text](url)` renders as `text`: the address is dropped. */
  lemma LinkUnwrapped(text: string, url: string)
    requires |text| > 0 && PlainInline(text) && ']' !in text
    requires |url| > 0 && PlainInline(url) && ')' !in url
    ensures StripInlineMarkdown("[" + text + "](" + url + ")") == text
  {
    var s := "[" + text + "](" + url + ")";
    assert forall i | 0 <= i < |s| :: s[i] !in "*_`";
    PlainText(Strong, s);
    PlainText(Emphasis, s);
    PlainText(InlineCode, s);
    LinkMatch(text, url);
    assert s[|s|..] == [];
    assert ReplaceAll(Link, s) == text + ReplaceAll(Link, []);
    assert text + [] == text;
  }

  lemma LinkMatch(text: string, url: string)
    requires |text| > 0 && ']' !in text
    requires |url| > 0 && ')' !in url
    ensures MatchAt(Link, "[" + text + "](" + url + ")") == Some(Hit(|text| + |url| + 4, text))
  {
    var s := "[" + text + "](" + url + ")";
    var j := |text| + 1;
    FirstOccurrenceAfter("[" + text, "]", "(" + url + ")", 1);
    assert s == "[" + text + "]" + ("(" + url + ")");
    assert s[j + 1] == '(';
    FirstOccurrenceAfter("[" + text + "](" + url, ")", [], j + 2);
    assert s == "[" + text + "](" + url + ")" + [];
    assert s[1..j] == text;
  }
}
