/** The simplified Markdown reader of the PDF report (app/pdf/ReportPDF.tsx): the report content is
    cut into lines, each line trimmed, and the lines become headings, bullets, paragraphs and pipe
    tables; table rows are then laid out on the header's columns. */
module ReportMarkdown {
  import opened Wrappers
  import opened JsText
  import opened Seqs
  import Sanitizer

  datatype Block =
    | Heading(level: nat, text: string)
    | Paragraph(text: string)
    | Bullet(text: string)
    | Table(headers: seq<string>, rows: seq<seq<string>>)

  /** What `trim` leaves: no white space at either end. */
  predicate Trimmed(s: string) {
    s == [] || (!IsWhite(s[0]) && !IsWhite(s[|s| - 1]))
  }

  // ---------------------------------------------------------------------------------------------
  // Lines without a block

  /** `/^-{3,}$/` or `/^\*{3,}$/`: a horizontal rule. */
  predicate IsRule(raw: string) {
    |raw| >= 3
    && ((forall j | 0 <= j < |raw| :: raw[j] == '-') || (forall j | 0 <= j < |raw| :: raw[j] == '*'))
  }

  /** A trimmed line that yields no block: empty, or a rule. */
  predicate Skipped(raw: string) {
    raw == [] || IsRule(raw)
  }

  // ---------------------------------------------------------------------------------------------
  // Headings and bullets

  /** The length of the run of `c` that starts `s`. */
  function Run(s: string, c: char): (k: nat)
    ensures k <= |s|
    ensures forall j | 0 <= j < k :: s[j] == c
    ensures k < |s| ==> s[k] != c
  {
    if |s| > 0 && s[0] == c then 1 + Run(s[1..], c) else 0
  }

  /** The tail `\s+(.*)$` of the heading and bullet patterns, matched from index `k` with `w` white
      space characters: the rest of the line holds no line terminator, which `.` does not match. */
  predicate SpaceThenLine(raw: string, k: nat, w: nat) {
    1 <= w && k + w <= |raw|
    && (forall j | k <= j < k + w :: IsWhite(raw[j]))
    && NoLineTerminator(raw[k + w..])
  }

  /** `/^(#+)\s+(.*)$/` matches with `k` marks and `w` spaces. */
  predicate HeadingAt(raw: string, k: nat, w: nat) {
    1 <= k <= |raw| && (forall j | 0 <= j < k :: raw[j] == '#') && SpaceThenLine(raw, k, w)
  }

  ghost predicate HeadingLine(raw: string) {
    exists k: nat, w: nat :: HeadingAt(raw, k, w)
  }

  /** `/^[-*]\s+(.*)$/` matches. */
  ghost predicate BulletLine(raw: string) {
    |raw| >= 1 && (raw[0] == '-' || raw[0] == '*') && exists w: nat :: SpaceThenLine(raw, 1, w)
  }

  /** The trimmed capture `(.*)` after a marker of `k` characters, if the tail pattern matches. */
  function AfterMarker(raw: string, k: nat): (r: Option<string>)
    requires k <= |raw|
    ensures r.Some? <==> exists w: nat :: SpaceThenLine(raw, k, w)
    ensures r.Some? ==> Trimmed(r.value)
  {
    MarkerMatch(raw, k);
    if k < |raw| && IsWhite(raw[k]) && NoLineTerminator(TrimStart(raw[k..])) then
      Some(Trim(TrimStart(raw[k..])))
    else None
  }

  /** The greedy `\s+` takes the whole white run, so the pattern matches exactly when the first
      character after the marker is white space and what follows the run has no line terminator. */
  lemma MarkerMatch(raw: string, k: nat)
    requires k <= |raw|
    ensures (k < |raw| && IsWhite(raw[k]) && NoLineTerminator(TrimStart(raw[k..])))
            <==> exists w: nat :: SpaceThenLine(raw, k, w)
  {
    if k < |raw| && IsWhite(raw[k]) && NoLineTerminator(TrimStart(raw[k..])) {
      WhiteRunMatches(raw, k);
    }
    if exists w: nat :: SpaceThenLine(raw, k, w) {
      var w: nat :| SpaceThenLine(raw, k, w);
      MatchCoversRun(raw, k, w);
    }
  }

  /** The white run that `trim` removes is a witness of the pattern. */
  lemma WhiteRunMatches(raw: string, k: nat)
    requires k < |raw| && IsWhite(raw[k]) && NoLineTerminator(TrimStart(raw[k..]))
    ensures SpaceThenLine(raw, k, |raw| - k - |TrimStart(raw[k..])|)
  {
    TrimStartFrom(raw, k);
  }

  /** Any match's white run lies within the run `trim` removes, so the rest after the latter is free
      of line terminators too. */
  lemma MatchCoversRun(raw: string, k: nat, w: nat)
    requires SpaceThenLine(raw, k, w)
    ensures k < |raw| && IsWhite(raw[k]) && NoLineTerminator(TrimStart(raw[k..]))
  {
    TrimStartFrom(raw, k);
    WhiteRunTrimmed(raw, k, w);
    LaterSuffix(raw, k + w, |raw| - |TrimStart(raw[k..])|);
  }

  /** A heading's marks are the whole run of '#' that starts the line. */
  lemma HeadingRun(raw: string)
    ensures HeadingLine(raw) <==> Run(raw, '#') >= 1 && exists w: nat :: SpaceThenLine(raw, Run(raw, '#'), w)
  {
    var n := Run(raw, '#');
    if HeadingLine(raw) {
      var k: nat, w: nat :| HeadingAt(raw, k, w);
      assert raw[k] != '#';
      assert k == n;
    }
    if n >= 1 && exists w: nat :: SpaceThenLine(raw, n, w) {
      var w: nat :| SpaceThenLine(raw, n, w);
      assert HeadingAt(raw, n, w);
    }
  }

  /** The block of a trimmed line that is neither skipped nor the head of a table: a heading, else a
      bullet, else a paragraph holding the line. */
  function Classify(raw: string): (b: Block)
    ensures b.Heading? <==> HeadingLine(raw)
    ensures b.Heading? ==> b.level >= 1 && b.level == Run(raw, '#') && Trimmed(b.text)
    ensures b.Bullet? <==> !HeadingLine(raw) && BulletLine(raw)
    ensures b.Bullet? ==> Trimmed(b.text)
    ensures b.Paragraph? <==> !HeadingLine(raw) && !BulletLine(raw)
    ensures b.Paragraph? ==> b.text == raw
    ensures !b.Table?
  {
    HeadingRun(raw);
    var k := Run(raw, '#');
    var heading := if k >= 1 then AfterMarker(raw, k) else None;
    if heading.Some? then Heading(k, heading.value)
    else
      var bullet := if |raw| >= 1 && (raw[0] == '-' || raw[0] == '*') then AfterMarker(raw, 1) else None;
      if bullet.Some? then Bullet(bullet.value) else Paragraph(raw)
  }

  // ---------------------------------------------------------------------------------------------
  // Tables

  /** A row given without its closing bar gets one. */
  function Closed(raw: string): string {
    if EndsWith(raw, "|") then raw else raw + "|"
  }

  /** `.slice(1, -1)`: everything but the first and the last element. */
  function Inner<T>(xs: seq<T>): seq<T> {
    if |xs| >= 2 then xs[1..|xs| - 1] else []
  }

  /** What a cell is: a trimmed text without a bar. */
  predicate IsCell(s: string) {
    '|' !in s && Trimmed(s)
  }

  /** The cells of a table line: the trimmed texts between consecutive bars of the closed line. */
  function CellTexts(raw: string): (r: seq<string>)
    ensures forall c | 0 <= c < |r| :: IsCell(r[c])
  {
    var pieces := Inner(Split(Closed(raw), '|'));
    forall c | 0 <= c < |pieces| ensures '|' !in Trim(pieces[c]) {
      TrimKeeps(pieces[c], '|');
    }
    seq(|pieces|, c requires 0 <= c < |pieces| => Trim(pieces[c]))
  }

  /** A table line has one cell fewer than its closed form has bars. */
  lemma CellCount(raw: string)
    ensures multiset(Closed(raw))['|'] >= 1
    ensures |CellTexts(raw)| == multiset(Closed(raw))['|'] - 1
  {
    var s := Closed(raw);
    assert s[|s| - 1] == '|';
    assert '|' in multiset(s);
    SplitCount(s, '|');
  }

  /** The header cells: the non-empty cells of the header line. */
  function HeaderCells(raw: string): (r: seq<string>)
    ensures forall c | 0 <= c < |r| :: r[c] != [] && IsCell(r[c])
  {
    FilterPreserves(CellTexts(raw), NonEmpty, IsCell);
    Filter(CellTexts(raw), NonEmpty)
  }

  /** The header keeps exactly the non-empty cells of its line, in their order. */
  lemma HeaderKeeps(raw: string)
    ensures forall c | 0 <= c < |CellTexts(raw)| :: CellTexts(raw)[c] in HeaderCells(raw) <==> CellTexts(raw)[c] != []
    ensures |HeaderCells(raw)| == 0 <==> forall c | 0 <= c < |CellTexts(raw)| :: CellTexts(raw)[c] == []
  {
    FilterMembers(CellTexts(raw), NonEmpty);
    FilterExtremes(CellTexts(raw), NonEmpty);
  }

  predicate NonEmpty(s: string) {
    s != []
  }

  /** `/^[:\-|\s]+$/`: the alignment line under a table header. */
  predicate IsSeparator(s: string) {
    |s| > 0 && forall j | 0 <= j < |s| :: s[j] == ':' || s[j] == '-' || s[j] == '|' || IsWhite(s[j])
  }

  /** `raw.startsWith("|")`. */
  predicate IsBarLine(raw: string) {
    |raw| > 0 && raw[0] == '|'
  }

  // ---------------------------------------------------------------------------------------------
  // The parser

  /** A line as the parser sees it: its trimmed text and what the parser's tests make of that text
      (the source trims every line it looks at, the current one, the alignment line and the table
      rows alike). */
  datatype Line = Line(
    raw: string,
    skipped: bool,        // blank, or a rule
    bar: bool,            // starts with a bar
    separator: bool,      // an alignment line
    header: seq<string>,  // its header cells, should it head a table
    cells: seq<string>,   // its cells, should it be a table row
    block: Block)         // its block, should it stand alone

  function Scan(line: string): Line {
    var raw := Trim(line);
    Line(raw, Skipped(raw), IsBarLine(raw), IsSeparator(raw), HeaderCells(raw), CellTexts(raw), Classify(raw))
  }

  function ScanAll(lines: seq<string>): (r: seq<Line>)
    ensures |r| == |lines|
  {
    Map(lines, Scan)
  }

  /** Each line is scanned on its own. */
  lemma ScanAt(lines: seq<string>, j: nat)
    requires j < |lines|
    ensures ScanAll(lines)[j] == Scan(lines[j])
  {
    MapAt(lines, Scan, j);
  }

  /** Whether a scanned line is a bar line or skipped depends on its trimmed text alone. */
  lemma ScanFlags(lines: seq<string>, j: nat)
    requires j < |lines|
    ensures ScanAll(lines)[j].bar == IsBarLine(Trim(lines[j]))
    ensures ScanAll(lines)[j].skipped == Skipped(Trim(lines[j]))
  {
    ScanAt(lines, j);
  }

  /** What scanning guarantees of a line: a trimmed text, non-empty unless skipped; a bar line is
      not skipped; header cells that are non-empty cells; a block that is well formed unless the
      line is skipped. */
  predicate Sound(l: Line) {
    Trimmed(l.raw)
    && (l.bar ==> !l.skipped)
    && (!l.skipped ==> l.raw != [] && WellFormed(l.block) && !l.block.Table?)
    && (forall c | 0 <= c < |l.header| :: l.header[c] != [] && IsCell(l.header[c]))
    && (forall c | 0 <= c < |l.cells| :: IsCell(l.cells[c]))
  }

  lemma ScanSound(line: string)
    ensures Sound(Scan(line))
  {
    var raw := Trim(line);
    var b := Classify(raw);
    if !Skipped(raw) {
      assert raw != [];
      assert WellFormed(b);
    }
  }

  /** The line at `i` heads a table: it starts with a bar, the next line is an alignment line and the
      header has a non-empty cell. A missing next line reads as "", which is no alignment line. */
  predicate OpensTable(ls: seq<Line>, i: nat)
    requires i < |ls|
  {
    ls[i].bar && i + 1 < |ls| && ls[i + 1].separator && |ls[i].header| > 0
  }

  /** The end of the table body that starts at line `i`: the body is the longest run of bar lines
      from `i` on. */
  function BodyEnd(ls: seq<Line>, i: nat): (r: nat)
    requires i <= |ls|
    ensures i <= r <= |ls|
    ensures forall j | i <= j < r :: ls[j].bar
    ensures r < |ls| ==> !ls[r].bar
    decreases |ls| - i
  {
    if i < |ls| && ls[i].bar then BodyEnd(ls, i + 1) else i
  }

  /** The table body ends at the first line that does not start with a bar. */
  lemma {:induction false} BodyEndAt(ls: seq<Line>, i: nat, end: nat)
    requires i <= end <= |ls|
    requires forall j | i <= j < end :: ls[j].bar
    requires end < |ls| ==> !ls[end].bar
    ensures BodyEnd(ls, i) == end
    decreases end - i
  {
    if i < end {
      BodyEndAt(ls, i + 1, end);
    }
  }

  /** The cells of each row line. */
  function Rows(body: seq<Line>): (r: seq<seq<string>>)
    ensures |r| == |body|
    ensures forall k | 0 <= k < |r| :: r[k] == body[k].cells
  {
    seq(|body|, k requires 0 <= k < |body| => body[k].cells)
  }

  /** `parseMarkdownToBlocks` from line `i` on. */
  function Parse(ls: seq<Line>, i: nat): (r: seq<Block>)
    requires i <= |ls|
    ensures |r| <= |ls| - i
    decreases |ls| - i
  {
    if i == |ls| then []
    else if ls[i].skipped then Parse(ls, i + 1)
    else if OpensTable(ls, i) then
      var end := BodyEnd(ls, i + 2);
      [Table(ls[i].header, Rows(ls[i + 2..end]))] + Parse(ls, end)
    else [ls[i].block] + Parse(ls, i + 1)
  }

  /** The blocks of a report text: never more than it has lines. */
  function Blocks(content: string): (r: seq<Block>)
    ensures |r| <= |Split(content, '\n')|
  {
    Parse(ScanAll(Split(content, '\n')), 0)
  }

  /** What every block satisfies: headings have a level, paragraphs hold a non-empty line, texts are
      trimmed, tables have a non-empty header cell and their cells hold no bar. */
  predicate WellFormed(b: Block) {
    match b
    case Heading(level, text) => level >= 1 && Trimmed(text)
    case Paragraph(text) => text != [] && Trimmed(text)
    case Bullet(text) => Trimmed(text)
    case Table(headers, rows) =>
      |headers| >= 1
      && (forall c | 0 <= c < |headers| :: headers[c] != [] && IsCell(headers[c]))
      && (forall r | 0 <= r < |rows| :: forall c | 0 <= c < |rows[r]| :: IsCell(rows[r][c]))
  }

  lemma {:induction false} ParseWellFormed(ls: seq<Line>, i: nat)
    requires i <= |ls|
    requires forall j | i <= j < |ls| :: Sound(ls[j])
    ensures forall k | 0 <= k < |Parse(ls, i)| :: WellFormed(Parse(ls, i)[k])
    decreases |ls| - i
  {
    if i < |ls| {
      if ls[i].skipped {
        ParseWellFormed(ls, i + 1);
      } else if OpensTable(ls, i) {
        var end := BodyEnd(ls, i + 2);
        ParseWellFormed(ls, end);
        var rows := Rows(ls[i + 2..end]);
        forall r | 0 <= r < |rows|
          ensures forall c | 0 <= c < |rows[r]| :: IsCell(rows[r][c])
        {
          assert rows[r] == ls[i + 2 + r].cells;
        }
        assert WellFormed(Table(ls[i].header, rows));
      } else {
        ParseWellFormed(ls, i + 1);
      }
    }
  }

  /** The blocks of a report text are well formed. */
  lemma BlocksWellFormed(content: string)
    ensures forall k | 0 <= k < |Blocks(content)| :: WellFormed(Blocks(content)[k])
  {
    var lines := Split(content, '\n');
    var ls := ScanAll(lines);
    forall j | 0 <= j < |ls| ensures Sound(ls[j]) {
      ScanAt(lines, j);
      ScanSound(lines[j]);
    }
    ParseWellFormed(ls, 0);
  }

  /** A line that heads a table gives one table block: its header cells, one row per bar line of the
      longest run after the alignment line, and parsing resumes after that run. */
  lemma TableAbsorbs(ls: seq<Line>, i: nat)
    requires i < |ls| && Sound(ls[i]) && OpensTable(ls, i)
    ensures |Parse(ls, i)| >= 1 && Parse(ls, i)[0].Table?
    ensures Parse(ls, i)[0].headers == ls[i].header
    ensures var rows := Parse(ls, i)[0].rows;
            i + 2 + |rows| <= |ls|
            && (forall j | i + 2 <= j < i + 2 + |rows| :: ls[j].bar && rows[j - (i + 2)] == ls[j].cells)
            && (i + 2 + |rows| < |ls| ==> !ls[i + 2 + |rows|].bar)
            && Parse(ls, i)[1..] == Parse(ls, i + 2 + |rows|)
  {
    var end := BodyEnd(ls, i + 2);
    var rows := Rows(ls[i + 2..end]);
    assert Parse(ls, i) == [Table(ls[i].header, rows)] + Parse(ls, end);
    assert Parse(ls, i)[1..] == Parse(ls, end);
  }

  /** A bar line that fails the table test is classified like any other line: it becomes a
      paragraph holding the trimmed line. */
  lemma FailedTableIsParagraph(lines: seq<string>, i: nat)
    requires i < |lines| && IsBarLine(Trim(lines[i])) && !OpensTable(ScanAll(lines), i)
    ensures Parse(ScanAll(lines), i) == [Paragraph(Trim(lines[i]))] + Parse(ScanAll(lines), i + 1)
  {
    ScanAt(lines, i);
    BarLineIsParagraph(Trim(lines[i]));
  }

  /** A line that starts with a bar is neither skipped, nor a heading, nor a bullet. */
  lemma BarLineIsParagraph(raw: string)
    requires IsBarLine(raw)
    ensures !Skipped(raw) && Classify(raw) == Paragraph(raw)
  {
    assert raw[0] != '-' && raw[0] != '*';
    assert !HeadingLine(raw) by {
      forall k: nat, w: nat ensures !HeadingAt(raw, k, w) {
        assert raw[0] != '#';
      }
    }
  }

  /** The blocks of lines that stand alone: those of the lines that are not skipped, in order. */
  function Standalone(ls: seq<Line>): seq<Block> {
    if |ls| == 0 then []
    else (if ls[0].skipped then [] else [ls[0].block]) + Standalone(ls[1..])
  }

  /** Without bar lines the parser maps lines to blocks one by one. */
  lemma {:induction false} NoTables(ls: seq<Line>, i: nat)
    requires i <= |ls|
    requires forall j | i <= j < |ls| :: !ls[j].bar
    ensures Parse(ls, i) == Standalone(ls[i..])
    decreases |ls| - i
  {
    if i < |ls| {
      NoTables(ls, i + 1);
      assert ls[i..][1..] == ls[i + 1..];
    }
  }

  /** Lines that are all skipped yield no block. */
  lemma {:induction false} OnlySkipped(ls: seq<Line>, i: nat)
    requires i <= |ls|
    requires forall j | i <= j < |ls| :: ls[j].skipped
    ensures Parse(ls, i) == []
    decreases |ls| - i
  {
    if i < |ls| {
      OnlySkipped(ls, i + 1);
    }
  }

  /** The blocks of a text with no bar line, as a reference: each line that is not skipped,
      trimmed and classified, in input order. */
  function LineBlocks(lines: seq<string>): seq<Block> {
    if |lines| == 0 then []
    else
      var raw := Trim(lines[0]);
      (if Skipped(raw) then [] else [Classify(raw)]) + LineBlocks(lines[1..])
  }

  lemma {:induction false} StandaloneLines(lines: seq<string>)
    ensures Standalone(ScanAll(lines)) == LineBlocks(lines)
  {
    if |lines| > 0 {
      StandaloneLines(lines[1..]);
      assert ScanAll(lines)[1..] == ScanAll(lines[1..]);
    }
  }

  /** A text without table lines: every line that is not blank or a rule gives its heading, bullet
      or paragraph, in the order of the lines. */
  lemma PlainText(content: string)
    requires forall j | 0 <= j < |Split(content, '\n')| :: !IsBarLine(Trim(Split(content, '\n')[j]))
    ensures Blocks(content) == LineBlocks(Split(content, '\n'))
  {
    var lines := Split(content, '\n');
    forall j | 0 <= j < |lines| ensures !ScanAll(lines)[j].bar {
      ScanFlags(lines, j);
    }
    PlainLines(lines);
  }

  /** Scanned lines without a bar line parse to the blocks of the lines one by one. */
  lemma PlainLines(lines: seq<string>)
    requires forall j | 0 <= j < |ScanAll(lines)| :: !ScanAll(lines)[j].bar
    ensures Parse(ScanAll(lines), 0) == LineBlocks(lines)
  {
    var ls := ScanAll(lines);
    NoTables(ls, 0);
    assert ls[0..] == ls;
    StandaloneLines(lines);
  }

  /** A text of blank lines and rules yields no block. */
  lemma BlankText(content: string)
    requires forall j | 0 <= j < |Split(content, '\n')| :: Skipped(Trim(Split(content, '\n')[j]))
    ensures Blocks(content) == []
  {
    var lines := Split(content, '\n');
    var ls := ScanAll(lines);
    forall j | 0 <= j < |ls| ensures ls[j].skipped {
      ScanFlags(lines, j);
    }
    OnlySkipped(ls, 0);
  }

  /** The inner loop of `parseMarkdownToBlocks`: the rows of the table body that starts at line
      `start`, and the line after it. */
  method ReadRows(ls: seq<Line>, start: nat) returns (rows: seq<seq<string>>, next: nat)
    requires start <= |ls|
    ensures next == BodyEnd(ls, start)
    ensures rows == Rows(ls[start..next])
  {
    rows := [];
    next := start;
    while next < |ls| && ls[next].bar
      invariant start <= next <= |ls|
      invariant forall j | start <= j < next :: ls[j].bar
      invariant rows == Rows(ls[start..next])
      decreases |ls| - next
    {
      assert Rows(ls[start..next + 1]) == Rows(ls[start..next]) + [ls[next].cells];
      rows := rows + [ls[next].cells];
      next := next + 1;
    }
    BodyEndAt(ls, start, next);
  }

  /** The outer loop of `parseMarkdownToBlocks`, on the scanned lines: a skipped line moves on, a
      table head takes its alignment line and body, any other line gives its own block. */
  method ParseLines(ls: seq<Line>) returns (blocks: seq<Block>)
    ensures blocks == Parse(ls, 0)
  {
    blocks := [];
    var i := 0;
    while i < |ls|
      invariant 0 <= i <= |ls|
      invariant Parse(ls, 0) == blocks + Parse(ls, i)
      decreases |ls| - i
    {
      if ls[i].skipped {
        assert Parse(ls, i) == Parse(ls, i + 1);
        i := i + 1;
      } else if OpensTable(ls, i) {
        var rows, next := ReadRows(ls, i + 2);
        var table := Table(ls[i].header, rows);
        TableStep(ls, i);
        Shift(blocks, table, Parse(ls, next));
        blocks := blocks + [table];
        i := next;
      } else {
        LineStep(ls, i);
        Shift(blocks, ls[i].block, Parse(ls, i + 1));
        blocks := blocks + [ls[i].block];
        i := i + 1;
      }
    }
  }

  /** Moving the next block from the rest to the blocks already found. */
  lemma Shift(done: seq<Block>, b: Block, rest: seq<Block>)
    ensures done + ([b] + rest) == (done + [b]) + rest
  {
  }

  /** Any other line gives its own block, and parsing resumes at the next line. */
  lemma LineStep(ls: seq<Line>, i: nat)
    requires i < |ls| && !ls[i].skipped && !OpensTable(ls, i)
    ensures Parse(ls, i) == [ls[i].block] + Parse(ls, i + 1)
  {
  }

  /** A table head gives its table, whose rows are the body's lines, and parsing resumes after the
      body. */
  lemma TableStep(ls: seq<Line>, i: nat)
    requires i < |ls| && !ls[i].skipped && OpensTable(ls, i)
    ensures Parse(ls, i) == [Table(ls[i].header, Rows(ls[i + 2..BodyEnd(ls, i + 2)]))] + Parse(ls, BodyEnd(ls, i + 2))
  {
  }

  /** `parseMarkdownToBlocks`: the text cut at line feeds, each line scanned, then the loop. Trimming
      and testing a line have no effect besides their result, so scanning every line before the loop
      gives what the loop computes line by line. */
  method ParseMarkdownToBlocks(content: string) returns (blocks: seq<Block>)
    ensures blocks == Blocks(content)
    ensures forall k | 0 <= k < |blocks| :: WellFormed(blocks[k])
  {
    var lines := Split(content, '\n');
    blocks := ParseLines(ScanAll(lines));
    BlocksWellFormed(content);
  }

  // ---------------------------------------------------------------------------------------------
  // Table layout

  /** The rendered cells of one row: one per header, the row's own cell unwrapped of inline markup,
      or an empty text where the row is short; cells beyond the headers are not shown. */
  function RowCells(headers: seq<string>, row: seq<string>): (r: seq<string>)
    ensures |r| == |headers|
    ensures forall c | 0 <= c < |r| && c < |row| :: r[c] == Sanitizer.StripInlineMarkdown(row[c])
    ensures forall c | |row| <= c < |r| :: r[c] == ""
  {
    assert Sanitizer.StripInlineMarkdown("") == "";
    seq(|headers|, c requires 0 <= c < |headers| => Sanitizer.StripInlineMarkdown(if c < |row| then row[c] else ""))
  }
}
