/** The string operations of the JavaScript runtime that the dashboard relies on: `trim`, `split`,
    `join`, `indexOf`/`includes`, `startsWith`/`endsWith`, `slice`, `toUpperCase` and `replace` with a
    string pattern. A `char` stands for one UTF-16 code unit, the unit JavaScript counts in. */
module JsText {
  import opened Wrappers

  // ---------------------------------------------------------------------------------------------
  // Character classes

  /** The characters `String.prototype.trim` removes and the regular-expression class `\s` matches:
      WhiteSpace and LineTerminator of ECMAScript, sections 12.2 and 12.3. */
  predicate IsWhite(c: char) {
    c == '\t' || c == '\n' || c == '\U{B}' || c == '\U{C}' || c == '\r' || c == ' '
    || c == '\U{A0}' || c == '\U{1680}' || ('\U{2000}' <= c <= '\U{200A}')
    || c == '\U{2028}' || c == '\U{2029}' || c == '\U{202F}' || c == '\U{205F}'
    || c == '\U{3000}' || c == '\U{FEFF}'
  }

  /** The characters the regular-expression wildcard `.` does not match. */
  predicate IsLineTerminator(c: char) {
    c == '\n' || c == '\r' || c == '\U{2028}' || c == '\U{2029}'
  }

  predicate AllWhite(s: string) {
    forall i | 0 <= i < |s| :: IsWhite(s[i])
  }

  predicate NoLineTerminator(s: string) {
    forall i | 0 <= i < |s| :: !IsLineTerminator(s[i])
  }

  /** A later suffix of a text free of line terminators is free of them too. */
  lemma LaterSuffix(s: string, a: nat, b: nat)
    requires a <= b <= |s| && NoLineTerminator(s[a..])
    ensures NoLineTerminator(s[b..])
  {
    forall j | 0 <= j < |s| - b ensures !IsLineTerminator(s[b..][j]) {
      assert s[b..][j] == s[a..][b - a + j];
    }
  }

  // ---------------------------------------------------------------------------------------------
  // trim

  function TrimStart(s: string): (r: string)
    ensures |r| <= |s| && r == s[|s| - |r|..]
    ensures forall i | 0 <= i < |s| - |r| :: IsWhite(s[i])
    ensures r == [] || !IsWhite(r[0])
  {
    if |s| > 0 && IsWhite(s[0]) then
      var r := TrimStart(s[1..]);
      assert forall i | 1 <= i < |s| - |r| :: s[i] == s[1..][i - 1];
      r
    else s
  }

  /** `s.slice(k).trimStart()` is a suffix of `s` that leaves out white space only, and at least one
      character when the slice starts with white space. */
  lemma TrimStartFrom(s: string, k: nat)
    requires k <= |s|
    ensures k <= |s| - |TrimStart(s[k..])|
    ensures TrimStart(s[k..]) == s[|s| - |TrimStart(s[k..])|..]
    ensures forall j | k <= j < |s| - |TrimStart(s[k..])| :: IsWhite(s[j])
    ensures k < |s| && IsWhite(s[k]) ==> k < |s| - |TrimStart(s[k..])|
  {
    var u := s[k..];
    var t := TrimStart(u);
    var n := |u| - |t|;
    assert t == u[n..];
    assert u[n..] == s[k + n..];
    forall j | k <= j < k + n
      ensures IsWhite(s[j])
    {
      assert s[j] == u[j - k];
    }
    assert |t| > 0 ==> t[0] == s[k + n];
  }

  /** Trimming the start of `s.slice(k)` removes at least any white run that starts at `k`. */
  lemma WhiteRunTrimmed(s: string, k: nat, n: nat)
    requires k + n <= |s|
    requires forall j | k <= j < k + n :: IsWhite(s[j])
    ensures k + n <= |s| - |TrimStart(s[k..])|
  {
    var u := s[k..];
    var t := TrimStart(u);
    var e := |s| - |t|;
    TrimStartFrom(s, k);
    assert e < |s| ==> t[0] == s[e];
    assert e < |s| ==> !IsWhite(s[e]);
  }

  function TrimEnd(s: string): (r: string)
    ensures |r| <= |s| && r == s[..|r|]
    ensures forall i | |r| <= i < |s| :: IsWhite(s[i])
    ensures r == [] || !IsWhite(r[|r| - 1])
  {
    if |s| > 0 && IsWhite(s[|s| - 1]) then
      var r := TrimEnd(s[..|s| - 1]);
      assert s[..|s| - 1][..|r|] == s[..|r|];
      r
    else s
  }

  /** `String.prototype.trim`: the longest infix without leading or trailing white space, everything
      removed being white space. */
  function Trim(s: string): (r: string)
    ensures |r| <= |s|
    ensures r == [] || (!IsWhite(r[0]) && !IsWhite(r[|r| - 1]))
    ensures r == [] <==> AllWhite(s)
    ensures |s| > 0 && !IsWhite(s[0]) && !IsWhite(s[|s| - 1]) ==> r == s
  {
    TrimFacts(s);
    TrimEnd(TrimStart(s))
  }

  lemma TrimFacts(s: string)
    ensures TrimEnd(TrimStart(s)) == [] <==> AllWhite(s)
    ensures |s| > 0 && !IsWhite(s[0]) && !IsWhite(s[|s| - 1]) ==> TrimEnd(TrimStart(s)) == s
  {
    var t := TrimStart(s);
    var k := |s| - |t|;
    var u := TrimEnd(t);
    if t != [] {
      assert t[0] == s[k];
    }
    if |s| > 0 && !IsWhite(s[0]) && !IsWhite(s[|s| - 1]) {
      assert k == 0;
      assert t[|t| - 1] == s[|s| - 1];
      assert |u| == |t|;
    }
  }

  // ---------------------------------------------------------------------------------------------
  // prefixes, occurrences, indexOf

  predicate StartsWith(s: string, prefix: string) {
    |prefix| <= |s| && s[..|prefix|] == prefix
  }

  predicate EndsWith(s: string, suffix: string) {
    |suffix| <= |s| && s[|s| - |suffix|..] == suffix
  }

  /** A text framed by `head` and `tail` starts with the one and ends with the other. */
  lemma Framed(head: string, body: string, tail: string)
    ensures StartsWith(head + body + tail, head)
    ensures EndsWith(head + body + tail, tail)
  {
    assert (head + body + tail)[..|head|] == head;
    assert (head + body + tail)[|head + body|..] == tail;
  }

  /** A text made of two parts starts with the first and ends with the second. */
  lemma Joined(head: string, tail: string)
    ensures StartsWith(head + tail, head)
    ensures EndsWith(head + tail, tail)
  {
    assert (head + tail)[..|head|] == head;
    assert (head + tail)[|head|..] == tail;
  }

  /** A text that starts with `a + b` starts with `a`; one that ends with `a + b` ends with `b`. */
  lemma AffixParts(s: string, a: string, b: string)
    ensures StartsWith(s, a + b) ==> StartsWith(s, a)
    ensures EndsWith(s, a + b) ==> EndsWith(s, b)
  {
    if StartsWith(s, a + b) {
      assert s[..|a|] == (a + b)[..|a|];
    }
    if EndsWith(s, a + b) {
      assert s[|s| - |b|..] == (a + b)[|a|..];
    }
  }

  /** Prefixes of prefixes and suffixes of suffixes. */
  lemma AffixTransitive(s: string, t: string, u: string)
    ensures StartsWith(s, t) && StartsWith(t, u) ==> StartsWith(s, u)
    ensures EndsWith(s, t) && EndsWith(t, u) ==> EndsWith(s, u)
  {
    if StartsWith(s, t) && StartsWith(t, u) {
      assert s[..|u|] == t[..|u|];
    }
    if EndsWith(s, t) && EndsWith(t, u) {
      assert s[|s| - |u|..] == t[|t| - |u|..];
    }
  }

  /** A frame determines its contents: different texts framed alike give different results. */
  lemma FrameInjective(head: string, a: string, b: string, tail: string)
    requires a != b
    ensures head + a + tail != head + b + tail
  {
    if head + a + tail == head + b + tail {
      CancelFrame(head, a, b, tail);
    }
  }

  lemma CancelFrame(head: string, a: string, b: string, tail: string)
    requires head + a + tail == head + b + tail
    ensures a == b
  {
    var s := head + a + tail;
    assert |a| == |b|;
    assert s[|head|..|head| + |a|] == a;
    assert (head + b + tail)[|head|..|head| + |b|] == b;
  }

  /** `needle` occurs in `hay` starting at index `i`. */
  predicate OccursAt(needle: string, hay: string, i: int) {
    0 <= i && i + |needle| <= |hay| && hay[i..i + |needle|] == needle
  }

  /** `hay.indexOf(needle, from)`: the first occurrence at or after `from`. */
  function IndexOfFrom(needle: string, hay: string, from: nat): (r: Option<nat>)
    ensures r.Some? ==> from <= r.value && OccursAt(needle, hay, r.value)
    ensures r.Some? ==> forall j | from <= j < r.value :: !OccursAt(needle, hay, j)
    ensures r.None? ==> forall j | from <= j :: !OccursAt(needle, hay, j)
    decreases |hay| - from
  {
    if from + |needle| > |hay| then None
    else if hay[from..from + |needle|] == needle then Some(from)
    else IndexOfFrom(needle, hay, from + 1)
  }

  function IndexOf(needle: string, hay: string): Option<nat> {
    IndexOfFrom(needle, hay, 0)
  }

  /** `hay.includes(needle)`. */
  predicate Includes(hay: string, needle: string) {
    IndexOf(needle, hay).Some?
  }

  lemma IncludesIff(hay: string, needle: string)
    ensures Includes(hay, needle) <==> exists j :: OccursAt(needle, hay, j)
  {
    var r := IndexOf(needle, hay);
    if r.Some? {
      assert OccursAt(needle, hay, r.value);
    }
  }

  /** A needle whose first character is absent from `a` is first found just after `a`. */
  lemma {:induction false} FirstOccurrenceAfter(a: string, needle: string, b: string, from: nat)
    requires |needle| > 0 && from <= |a|
    requires forall i | from <= i < |a| :: a[i] != needle[0]
    ensures IndexOfFrom(needle, a + needle + b, from) == Some(|a|)
    decreases |a| - from
  {
    var hay := a + needle + b;
    assert OccursAt(needle, hay, |a|) by {
      assert hay[|a|..|a| + |needle|] == needle;
    }
    if from < |a| {
      assert hay[from] == a[from];
      assert hay[from..from + |needle|] != needle by {
        if from + |needle| <= |hay| {
          assert hay[from..from + |needle|][0] == a[from];
        }
      }
      FirstOccurrenceAfter(a, needle, b, from + 1);
    }
  }

  // ---------------------------------------------------------------------------------------------
  // join and split

  /** `xs.join(sep)`. */
  function Join(xs: seq<string>, sep: string): string {
    if |xs| == 0 then ""
    else if |xs| == 1 then xs[0]
    else xs[0] + sep + Join(xs[1..], sep)
  }

  /** `s.split(sep)` for a one-character separator: at least one piece, and no piece holds `sep`. */
  function Split(s: string, sep: char): (r: seq<string>)
    ensures |r| >= 1
    ensures forall i | 0 <= i < |r| :: sep !in r[i]
  {
    if |s| == 0 then [""]
    else
      var rest := Split(s[1..], sep);
      if s[0] == sep then [""] + rest
      else [[s[0]] + rest[0]] + rest[1..]
  }

  /** Joining the pieces of `s.split(sep)` with `sep` gives `s` back. */
  lemma {:induction false} JoinSplit(s: string, sep: char)
    ensures Join(Split(s, sep), [sep]) == s
  {
    if |s| > 0 {
      var rest := Split(s[1..], sep);
      JoinSplit(s[1..], sep);
      if s[0] != sep {
        var r := [[s[0]] + rest[0]] + rest[1..];
        if |rest| > 1 {
          assert r[1..] == rest[1..];
        }
        assert Join(r, [sep]) == [s[0]] + Join(rest, [sep]);
      }
      assert s == [s[0]] + s[1..];
    }
  }

  /** Splitting a join gives the pieces back, provided no piece holds the separator. */
  lemma {:induction false} SplitJoin(xs: seq<string>, sep: char)
    requires |xs| >= 1
    requires forall i | 0 <= i < |xs| :: sep !in xs[i]
    ensures Split(Join(xs, [sep]), sep) == xs
    decreases |xs|, |xs[0]|
  {
    if |xs[0]| == 0 {
      if |xs| > 1 {
        assert Join(xs, [sep]) == [sep] + Join(xs[1..], [sep]);
        SplitJoin(xs[1..], sep);
        assert Join(xs, [sep])[1..] == Join(xs[1..], [sep]);
        assert xs == [""] + xs[1..];
      }
    } else {
      var c := xs[0][0];
      var ys := [xs[0][1..]] + xs[1..];
      assert xs[0] == [c] + ys[0];
      assert forall i | 1 <= i < |ys| :: ys[i] == xs[i];
      SplitJoin(ys, sep);
      JoinCons(xs, ys, c, sep);
      SplitCons(c, Join(ys, [sep]), sep);
      assert xs == [[c] + ys[0]] + ys[1..];
    }
  }

  lemma JoinCons(xs: seq<string>, ys: seq<string>, c: char, sep: char)
    requires |xs| >= 1 && |ys| == |xs|
    requires xs[0] == [c] + ys[0] && ys[1..] == xs[1..]
    ensures Join(xs, [sep]) == [c] + Join(ys, [sep])
  {
  }

  lemma SplitCons(c: char, s: string, sep: char)
    requires c != sep
    ensures Split([c] + s, sep) == [[c] + Split(s, sep)[0]] + Split(s, sep)[1..]
  {
    assert ([c] + s)[1..] == s;
  }

  /** `s.split(sep)` has one piece more than `s` has separators. */
  lemma {:induction false} SplitCount(s: string, sep: char)
    ensures |Split(s, sep)| == multiset(s)[sep] + 1
  {
    if |s| > 0 {
      SplitCount(s[1..], sep);
      assert s == [s[0]] + s[1..];
      assert multiset(s) == multiset([s[0]]) + multiset(s[1..]);
    }
  }

  /** Trimming only removes characters. */
  lemma TrimKeeps(s: string, c: char)
    requires c !in s
    ensures c !in Trim(s)
  {
  }

  // ---------------------------------------------------------------------------------------------
  // slice and numbers as text

  /** `s.slice(0, n)` and `s.substring(0, n)` for n >= 0: the first n code units, or all of them. */
  function Take(s: string, n: nat): (r: string)
    ensures |r| == if |s| < n then |s| else n
    ensures r == s[..|r|]
  {
    if |s| <= n then s else s[..n]
  }

  function DigitChar(d: nat): char
    requires d < 10
  {
    (48 + d) as char
  }

  /** The decimal text of a natural number, as `String(n)` prints it. */
  function NatText(n: nat): (r: string)
    ensures |r| >= 1
    ensures forall i | 0 <= i < |r| :: '0' <= r[i] <= '9'
  {
    if n < 10 then [DigitChar(n)] else NatText(n / 10) + [DigitChar(n % 10)]
  }

  /** The value of a string of decimal digits. */
  function DigitsValue(s: string): nat
    requires forall i | 0 <= i < |s| :: '0' <= s[i] <= '9'
  {
    if |s| == 0 then 0 else 10 * DigitsValue(s[..|s| - 1]) + ((s[|s| - 1] as int) - 48)
  }

  /** Reading a printed number back gives the number. */
  lemma {:induction false} NatTextRoundTrip(n: nat)
    ensures DigitsValue(NatText(n)) == n
  {
    if n >= 10 {
      var t := NatText(n);
      assert t[..|t| - 1] == NatText(n / 10);
      NatTextRoundTrip(n / 10);
    }
  }

  /** Distinct numbers print differently. */
  lemma NatTextInjective(m: nat, n: nat)
    requires m != n
    ensures NatText(m) != NatText(n)
  {
    NatTextRoundTrip(m);
    NatTextRoundTrip(n);
  }

  /** How the dashboard turns numbers into text; these are runtime services, so the model takes them as
      given functions: `show` is `String(x)` (Number::toString of ECMAScript, section 6.1.6.1.20),
      `fixed0` is `x.toFixed(0)` and `locale` is `x.toLocaleString()`. */
  datatype NumberFormat = NumberFormat(show: real -> string, fixed0: real -> string, locale: real -> string)

  /** Properties of `String(x)` the model relies on: never empty, never a leading `+`, and no line
      terminator. */
  ghost predicate ShowsPlainly(fmt: NumberFormat) {
    forall x: real :: |fmt.show(x)| > 0 && fmt.show(x)[0] != '+' && NoLineTerminator(fmt.show(x))
  }

  // ---------------------------------------------------------------------------------------------
  // toUpperCase

  /** Upper-case mapping of one code unit for the Basic Latin and Latin-1 ranges (the ranges the
      dashboard's identifiers use); other characters are returned unchanged. */
  function UpperChar(c: char): string {
    if 'a' <= c <= 'z' then [((c as int) - 32) as char]
    else if '\U{E0}' <= c <= '\U{FE}' && c != '\U{F7}' then [((c as int) - 32) as char]
    else if c == '\U{DF}' then "SS"
    else if c == '\U{FF}' then "\U{178}"
    else if c == '\U{B5}' then "\U{39C}"
    else [c]
  }

  /** `s.toUpperCase()` over Basic Latin and Latin-1 text; outside those ranges (for instance "œ" or
      Greek and Cyrillic letters) the model keeps characters that JavaScript would map. */
  function ToUpper(s: string): (r: string)
    ensures |r| >= |s|
    ensures (forall i | 0 <= i < |s| :: !('a' <= s[i] <= 'z') && !('\U{B5}' <= s[i] <= '\U{FF}')) ==> r == s
  {
    if |s| == 0 then "" else UpperChar(s[0]) + ToUpper(s[1..])
  }

  // ---------------------------------------------------------------------------------------------
  // replace with a string pattern

  /** The replacement text of `String.prototype.replace` with a string pattern (GetSubstitution of
      ECMAScript, section 22.1.3.19.1, with no capture groups): `$$` gives `$`, `$&` the matched text,
      `` $` `` the text before the match, `$'` the text after it; any other `$` is literal. */
  function Substitute(rep: string, matched: string, before: string, after: string): string {
    if |rep| == 0 then ""
    else if rep[0] == '$' && |rep| >= 2 && rep[1] == '$' then "$" + Substitute(rep[2..], matched, before, after)
    else if rep[0] == '$' && |rep| >= 2 && rep[1] == '&' then matched + Substitute(rep[2..], matched, before, after)
    else if rep[0] == '$' && |rep| >= 2 && rep[1] == '`' then before + Substitute(rep[2..], matched, before, after)
    else if rep[0] == '$' && |rep| >= 2 && rep[1] == '\'' then after + Substitute(rep[2..], matched, before, after)
    else [rep[0]] + Substitute(rep[1..], matched, before, after)
  }

  /** A replacement without `$` is inserted verbatim. */
  lemma {:induction false} SubstitutePlain(rep: string, matched: string, before: string, after: string)
    requires '$' !in rep
    ensures Substitute(rep, matched, before, after) == rep
  {
    if |rep| > 0 {
      assert rep[0] != '$';
      assert '$' !in rep[1..] by {
        assert forall i | 0 <= i < |rep[1..]| :: rep[1..][i] == rep[i + 1];
      }
      SubstitutePlain(rep[1..], matched, before, after);
    }
  }

  /** The first occurrence of `needle` in `hay` starts at index `i`. */
  predicate FirstAt(needle: string, hay: string, i: int) {
    OccursAt(needle, hay, i) && forall j | 0 <= j < i :: !OccursAt(needle, hay, j)
  }

  /** `IndexOf` finds nothing exactly when the needle never occurs, and otherwise the occurrence
      before which there is none. */
  lemma IndexOfFirst(needle: string, hay: string)
    ensures (forall j :: !OccursAt(needle, hay, j)) <==> IndexOf(needle, hay).None?
    ensures forall i | FirstAt(needle, hay, i) :: IndexOf(needle, hay) == Some(i)
  {
    var r := IndexOf(needle, hay);
    forall i | FirstAt(needle, hay, i)
      ensures r == Some(i)
    {
      assert r.Some?;
      assert !(r.value < i);
      assert !(i < r.value);
    }
  }

  /** `s.replace(pattern, rep)` with a string pattern: without an occurrence the text is unchanged;
      otherwise only the first occurrence is replaced (`ReplaceFirstAt`). */
  function ReplaceFirst(s: string, pattern: string, rep: string): (r: string)
    ensures (forall j :: !OccursAt(pattern, s, j)) ==> r == s
  {
    IndexOfFirst(pattern, s);
    match IndexOf(pattern, s)
    case None => s
    case Some(i) => s[..i] + Substitute(rep, pattern, s[..i], s[i + |pattern|..]) + s[i + |pattern|..]
  }

  /** The first occurrence, at `i`, gives way to the substituted replacement, with the text before
      and after it kept. */
  lemma ReplaceFirstAt(s: string, pattern: string, rep: string, i: nat)
    requires FirstAt(pattern, s, i)
    ensures i + |pattern| <= |s|
    ensures ReplaceFirst(s, pattern, rep)
         == s[..i] + Substitute(rep, pattern, s[..i], s[i + |pattern|..]) + s[i + |pattern|..]
  {
    IndexOfFirst(pattern, s);
  }

  /** Filling a template `head + pattern + tail` whose head cannot start the pattern. */
  lemma ReplaceFirstInTemplate(head: string, pattern: string, tail: string, rep: string)
    requires |pattern| > 0
    requires forall i | 0 <= i < |head| :: head[i] != pattern[0]
    ensures ReplaceFirst(head + pattern + tail, pattern, rep)
         == head + Substitute(rep, pattern, head, tail) + tail
  {
    var s := head + pattern + tail;
    FirstOccurrenceAfter(head, pattern, tail, 0);
    assert s[..|head|] == head;
    assert s[|head| + |pattern|..] == tail;
  }
}
