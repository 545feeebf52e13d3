/**
 * Plain-text tables for the bot's listings: how a cell is formatted, how
 * wide each column is, and the space-aligned and tab-separated renderings
 * of a matrix whose first row holds the headers.
 */
module Tables {

  import opened Text

  /** A cell: an integer, a duration in whole seconds, a string, or another value by its `str`. */
  datatype Value = Number(i: int) | Span(seconds: int) | Plain(s: string) | Object(str: string)

  // ---------------------------------------------------------------------------
  // Durations

  /** The band `_format_timedelta` tells a duration in, with the count its text shows. */
  datatype Band =
    | JustNow | Seconds(n: int) | AMinute | Minutes(n: int) | AnHour | Hours(n: int)
    | Yesterday | Days(n: int) | AWeek | Weeks(n: int) | AMonth | Months(n: int) | AYear | Years(n: int)

  /**
   * The first band whose condition holds; `days` is the whole number of days,
   * rounded down as `timedelta.days` is. A count is only ever shown in the
   * plural: it is never below two.
   */
  function BandOf(seconds: int): (b: Band)
    ensures b.Seconds? ==> 10 <= b.n < 60
    ensures b.Minutes? ==> 2 <= b.n < 60
    ensures b.Hours? ==> 2 <= b.n < 24
    ensures b.Days? ==> 2 <= b.n < 7
    ensures b.Weeks? ==> 2 <= b.n <= 4
    ensures b.Months? ==> 2 <= b.n <= 12
    ensures b.Years? ==> b.n >= 2
  {
    var days := seconds / 86400;
    if seconds < 10 then JustNow
    else if seconds < 60 then Seconds(seconds)
    else if seconds < 120 then AMinute
    else if seconds < 3600 then Minutes(seconds / 60)
    else if seconds < 7200 then AnHour
    else if seconds < 86400 then Hours(seconds / 3600)
    else if days == 1 then Yesterday
    else if days < 7 then Days(days)
    else if days < 14 then AWeek
    else if days < 31 then Weeks(days / 7)
    else if days < 62 then AMonth
    else if days < 365 then Months(days / 30)
    else if days < 730 then AYear
    else Years(days / 365)
  }

  /** The place of a band in the list of messages. */
  function Rank(b: Band): nat
  {
    match b
    case JustNow => 0 case Seconds(_) => 1 case AMinute => 2 case Minutes(_) => 3 case AnHour => 4
    case Hours(_) => 5 case Yesterday => 6 case Days(_) => 7 case AWeek => 8 case Weeks(_) => 9
    case AMonth => 10 case Months(_) => 11 case AYear => 12 case Years(_) => 13
  }

  /** The count a band shows, 0 for the phrases without one. */
  function Count(b: Band): int
  {
    if b.Seconds? || b.Minutes? || b.Hours? || b.Days? || b.Weeks? || b.Months? || b.Years? then b.n else 0
  }

  /** A longer duration is never told in an earlier band, nor with a smaller count in the same band. */
  lemma BandsOrdered(s1: int, s2: int)
    requires s1 <= s2
    ensures var b1, b2 := BandOf(s1), BandOf(s2);
      Rank(b1) < Rank(b2) || (Rank(b1) == Rank(b2) && Count(b1) <= Count(b2))
  {
    assert s1 / 86400 <= s2 / 86400;
    if s1 >= 86400 {
      var d1, d2 := s1 / 86400, s2 / 86400;
      assert d1 / 7 <= d2 / 7 && d1 / 30 <= d2 / 30 && d1 / 365 <= d2 / 365;
    } else {
      assert s1 / 60 <= s2 / 60 && s1 / 3600 <= s2 / 3600;
    }
  }

  /** The text of a band. */
  function Say(b: Band): string
  {
    match b
    case JustNow => "just now"
    case Seconds(n) => IntToString(n) + " seconds ago"
    case AMinute => "a minute ago"
    case Minutes(n) => IntToString(n) + " minutes ago"
    case AnHour => "an hour ago"
    case Hours(n) => IntToString(n) + " hours ago"
    case Yesterday => "Yesterday"
    case Days(n) => IntToString(n) + " days ago"
    case AWeek => "a week ago"
    case Weeks(n) => IntToString(n) + " weeks ago"
    case AMonth => "a month ago"
    case Months(n) => IntToString(n) + " months ago"
    case AYear => "a year ago"
    case Years(n) => IntToString(n) + " years ago"
  }

  /** `_format_timedelta`. */
  function FormatDelta(seconds: int): string
  {
    Say(BandOf(seconds))
  }

  /** Some durations and how they are told. */
  lemma FormatDeltaExamples()
    ensures FormatDelta(5) == "just now" && FormatDelta(45) == "45 seconds ago"
    ensures FormatDelta(90) == "a minute ago" && FormatDelta(86400 + 3600) == "Yesterday"
    ensures FormatDelta(3 * 86400) == "3 days ago" && FormatDelta(800 * 86400) == "2 years ago"
  {
    assert NatToString(45) == "45" by {
      assert NatToString(4) == "4";
    }
  }

  /** `"%02d"`. */
  function Pad2(n: nat): string
  {
    if n < 10 then "0" + NatToString(n) else NatToString(n)
  }

  /** `str` of a timedelta of whole seconds: `H:MM:SS`, after `D day(s), ` when there are days. */
  function DeltaStr(seconds: int): string
  {
    var days, rest := seconds / 86400, seconds % 86400;
    (if days == 0 then "" else IntToString(days) + (if days == 1 || days == -1 then " day, " else " days, "))
    + NatToString(rest / 3600) + ":" + Pad2(rest % 3600 / 60) + ":" + Pad2(rest % 60)
  }

  // ---------------------------------------------------------------------------
  // Cells

  /** `_format`: thousands separators for a number, a band for a duration, title case for the rest. */
  function Format(v: Value): string
  {
    match v
    case Number(i) => Thousands(i)
    case Span(s) => FormatDelta(s)
    case Plain(s) => Title(s)
    case Object(r) => Title(r)
  }

  /** `str` of a cell. */
  function Str(v: Value): string
  {
    match v
    case Number(i) => IntToString(i)
    case Span(s) => DeltaStr(s)
    case Plain(s) => s
    case Object(r) => r
  }

  /** Title case keeps a string's length, so a string column is as wide formatted as it is plain. */
  lemma TextKeepsLength(v: Value)
    requires v.Plain?
    ensures |Format(v)| == |Str(v)|
  {
    TitleSpec(v.s);
  }


  /** A matrix `matrix[0][x]` can index: at least one row, none shorter than the first. */
  predicate Rectangular(matrix: seq<seq<Value>>)
  {
    |matrix| > 0 && forall y :: 0 <= y < |matrix| ==> |matrix[y]| >= |matrix[0]|
  }

  /** Whether column `x` is shown by `str`: its header is one of the ignored names. */
  predicate Ignored(matrix: seq<seq<Value>>, ignore: set<string>, x: nat)
    requires Rectangular(matrix) && x < |matrix[0]|
  {
    matrix[0][x].Plain? && matrix[0][x].s in ignore
  }

  /** The text of a cell in the space-aligned table. */
  function CellText(matrix: seq<seq<Value>>, ignore: set<string>, y: nat, x: nat): string
    requires Rectangular(matrix) && y < |matrix| && x < |matrix[0]|
  {
    if Ignored(matrix, ignore, x) then Str(matrix[y][x]) else Format(matrix[y][x])
  }

  /** Rows of texts, each the same number of cells long. */
  type Grid = seq<seq<string>>

  predicate Even(cells: Grid, width: nat)
  {
    forall y :: 0 <= y < |cells| ==> |cells[y]| == width
  }

  /** The formatted cells of row `y`, as many as the first row has. */
  function FormattedRow(matrix: seq<seq<Value>>, y: nat): (row: seq<string>)
    requires Rectangular(matrix) && y < |matrix|
    ensures |row| == |matrix[0]|
  {
    seq(|matrix[0]|, x requires 0 <= x < |matrix[0]| => Format(matrix[y][x]))
  }

  /** Every cell of the matrix, as wide as its first row, formatted. */
  function Formatted(matrix: seq<seq<Value>>): (cells: Grid)
    requires Rectangular(matrix)
    ensures |cells| == |matrix| && Even(cells, |matrix[0]|)
  {
    seq(|matrix|, y requires 0 <= y < |matrix| => FormattedRow(matrix, y))
  }

  /** The cells of row `y` as the space-aligned table shows them. */
  function TextRow(matrix: seq<seq<Value>>, ignore: set<string>, y: nat): (row: seq<string>)
    requires Rectangular(matrix) && y < |matrix|
    ensures |row| == |matrix[0]|
  {
    seq(|matrix[0]|, x requires 0 <= x < |matrix[0]| => CellText(matrix, ignore, y, x))
  }

  /** Every cell of the matrix, as wide as its first row, as the space-aligned table shows it. */
  function Texts(matrix: seq<seq<Value>>, ignore: set<string>): (cells: Grid)
    requires Rectangular(matrix)
    ensures |cells| == |matrix| && Even(cells, |matrix[0]|)
  {
    seq(|matrix|, y requires 0 <= y < |matrix| => TextRow(matrix, ignore, y))
  }

  lemma FormattedAt(matrix: seq<seq<Value>>, y: nat, x: nat)
    requires Rectangular(matrix) && y < |matrix| && x < |matrix[0]|
    ensures Formatted(matrix)[y] == FormattedRow(matrix, y)
    ensures FormattedRow(matrix, y)[x] == Format(matrix[y][x])
  {
  }

  lemma TextAt(matrix: seq<seq<Value>>, ignore: set<string>, y: nat, x: nat)
    requires Rectangular(matrix) && y < |matrix| && x < |matrix[0]|
    ensures Texts(matrix, ignore)[y] == TextRow(matrix, ignore, y)
    ensures TextRow(matrix, ignore, y)[x] == CellText(matrix, ignore, y, x)
  {
  }

  // ---------------------------------------------------------------------------
  // Column widths

  /** The widest cell of column `x` among the first `n` rows, 0 among none. */
  function Widest(cells: Grid, width: nat, x: nat, n: nat): nat
    requires Even(cells, width) && x < width && n <= |cells|
  {
    if n == 0 then 0
    else
      var w, l := Widest(cells, width, x, n - 1), |cells[n - 1][x]|;
      if l > w then l else w
  }

  /** No cell of the column is wider than its widest, and the widest is some cell's width. */
  lemma {:induction false} WidestBounds(cells: Grid, width: nat, x: nat, n: nat)
    requires Even(cells, width) && x < width && n <= |cells|
    ensures forall y :: 0 <= y < n ==> |cells[y][x]| <= Widest(cells, width, x, n)
    ensures n == 0 || exists y :: 0 <= y < n && |cells[y][x]| == Widest(cells, width, x, n)
  {
    if n > 0 {
      WidestBounds(cells, width, x, n - 1);
    }
  }

  /** Each column's widest cell, plus the padding. */
  function Widths(cells: Grid, width: nat, padding: int): (r: seq<int>)
    requires Even(cells, width)
    ensures |r| == width
  {
    seq(width, x requires 0 <= x < width => Widest(cells, width, x, |cells|) + padding)
  }

  /** `_column_widths`: each column's widest formatted cell, plus the padding. */
  method ColumnWidths(matrix: seq<seq<Value>>, padding: int) returns (widths: seq<int>)
    requires Rectangular(matrix)
    ensures widths == Widths(Formatted(matrix), |matrix[0]|, padding)
  {
    var width := |matrix[0]|;
    ghost var cells := Formatted(matrix);
    widths := [];
    for x := 0 to width
      invariant |widths| == x
      invariant forall k :: 0 <= k < x ==> widths[k] == Widest(cells, width, k, |cells|) + padding
    {
      var w := ColumnWidth(matrix, x);
      widths := widths + [w + padding];
    }
  }

  /** The inner loop of `_column_widths`: the widest formatted cell of column `x`. */
  method ColumnWidth(matrix: seq<seq<Value>>, x: nat) returns (w: nat)
    requires Rectangular(matrix) && x < |matrix[0]|
    ensures w == Widest(Formatted(matrix), |matrix[0]|, x, |matrix|)
  {
    ghost var cells := Formatted(matrix);
    w := 0;
    for y := 0 to |matrix|
      invariant w == Widest(cells, |matrix[0]|, x, y)
    {
      var text := Format(matrix[y][x]);
      FormattedAt(matrix, y, x);
      if |text| > w {
        w := |text|;
      }
    }
  }

  // ---------------------------------------------------------------------------
  // The space-aligned table

  /** `s.ljust(width, " ")`. */
  function LJust(s: string, width: int): string
  {
    if width > |s| then s + Spaces(width - |s|) else s
  }

  function Spaces(n: nat): (r: string)
  {
    if n == 0 then "" else Spaces(n - 1) + " "
  }

  /** Left-justifying keeps the text at the front and pads it with spaces to the width, if it is narrower. */
  lemma LJustSpec(s: string, width: int)
    ensures |LJust(s, width)| == if width > |s| then width else |s|
    ensures LJust(s, width)[..|s|] == s
    ensures forall i :: |s| <= i < |LJust(s, width)| ==> LJust(s, width)[i] == ' '
  {
    if width > |s| {
      SpacesSpec(width - |s|);
    }
  }

  lemma {:induction false} SpacesSpec(n: nat)
    ensures |Spaces(n)| == n && forall i :: 0 <= i < n ==> Spaces(n)[i] == ' '
  {
    if n > 0 {
      SpacesSpec(n - 1);
    }
  }

  /** Each row's line: its cells left-justified to their columns' widths. */
  function Lines(texts: Grid, widths: seq<int>): (lines: seq<string>)
    requires Even(texts, |widths|)
    ensures |lines| == |texts|
  {
    seq(|texts|, y requires 0 <= y < |texts| => RowLine(texts[y], widths, |widths|))
  }

  lemma LineAt(texts: Grid, widths: seq<int>, y: nat)
    requires Even(texts, |widths|) && y < |texts|
    ensures Lines(texts, widths)[y] == RowLine(texts[y], widths, |widths|)
  {
  }

  /** The first `y` lines of the table, each followed by a line break. */
  function Pretty(lines: seq<string>, y: nat): string
    requires y <= |lines|
  {
    if y == 0 then "" else Pretty(lines, y - 1) + lines[y - 1] + "\n"
  }

  /** `pretty`: the whole table, the ignored columns shown by `str` and the others formatted. */
  method PrettyTable(matrix: seq<seq<Value>>, padding: int, ignore: set<string>) returns (table: string)
    requires Rectangular(matrix)
    ensures table == Pretty(Lines(Texts(matrix, ignore), Widths(Formatted(matrix), |matrix[0]|, padding)), |matrix|)
  {
    var widths := ColumnWidths(matrix, padding);
    table := PrettyLines(matrix, widths, ignore);
  }

  /** The rows of `pretty`, each cell left-justified to the width of its column. */
  method PrettyLines(matrix: seq<seq<Value>>, widths: seq<int>, ignore: set<string>) returns (table: string)
    requires Rectangular(matrix) && |widths| == |matrix[0]|
    ensures table == Pretty(Lines(Texts(matrix, ignore), widths), |matrix|)
  {
    ghost var lines := Lines(Texts(matrix, ignore), widths);
    table := "";
    for y := 0 to |matrix|
      invariant table == Pretty(lines, y)
    {
      var line := PrettyLine(matrix, widths, ignore, y);
      assert line == lines[y];
      table := table + line + "\n";
    }
  }

  /** The cells `pretty` appends for row `y`. */
  method PrettyLine(matrix: seq<seq<Value>>, widths: seq<int>, ignore: set<string>, y: nat) returns (line: string)
    requires Rectangular(matrix) && |widths| == |matrix[0]| && y < |matrix|
    ensures line == Lines(Texts(matrix, ignore), widths)[y]
  {
    ghost var row := Texts(matrix, ignore)[y];
    LineAt(Texts(matrix, ignore), widths, y);
    line := "";
    for x := 0 to |matrix[0]|
      invariant line == RowLine(row, widths, x)
    {
      var data := CellText(matrix, ignore, y, x);
      TextAt(matrix, ignore, y, x);
      line := line + LJust(data, widths[x]);
    }
  }

  /** The first `n` cells of a row, each left-justified to its column's width. */
  function RowLine(row: seq<string>, widths: seq<int>, n: nat): string
    requires n <= |row| && n <= |widths|
  {
    if n == 0 then "" else RowLine(row, widths, n - 1) + LJust(row[n - 1], widths[n - 1])
  }

  function Sum(widths: seq<int>, n: nat): int
    requires n <= |widths|
  {
    if n == 0 then 0 else Sum(widths, n - 1) + widths[n - 1]
  }

  /** A line whose every cell fits its column is the sum of the column widths long. */
  lemma {:induction false} RowFits(row: seq<string>, widths: seq<int>, n: nat)
    requires |row| == |widths| && n <= |widths|
    requires forall x :: 0 <= x < |widths| ==> |row[x]| <= widths[x]
    ensures |RowLine(row, widths, n)| == Sum(widths, n)
  {
    if n > 0 {
      RowFits(row, widths, n - 1);
      LJustSpec(row[n - 1], widths[n - 1]);
    }
  }

  /**
   * With a padding that is not negative, every cell of a row whose ignored
   * columns hold strings fits its column: a string is as wide by `str` as
   * it is formatted.
   */
  lemma CellsFit(matrix: seq<seq<Value>>, padding: int, ignore: set<string>, y: nat)
    requires Rectangular(matrix) && padding >= 0 && y < |matrix|
    requires forall x :: 0 <= x < |matrix[0]| && Ignored(matrix, ignore, x) ==> matrix[y][x].Plain?
    ensures var widths := Widths(Formatted(matrix), |matrix[0]|, padding);
      forall x :: 0 <= x < |matrix[0]| ==> |Texts(matrix, ignore)[y][x]| <= widths[x]
  {
    var cells, row := Formatted(matrix), Texts(matrix, ignore)[y];
    var widths := Widths(cells, |matrix[0]|, padding);
    forall x | 0 <= x < |matrix[0]| ensures |row[x]| <= widths[x] {
      WidestBounds(cells, |matrix[0]|, x, |matrix|);
      assert |cells[y][x]| <= widths[x];
      FormattedAt(matrix, y, x);
      TextAt(matrix, ignore, y, x);
      if Ignored(matrix, ignore, x) {
        TextKeepsLength(matrix[y][x]);
      }
    }
  }

  /** Such a row's line in the table is the sum of the column widths long: the columns line up. */
  lemma RowsAligned(matrix: seq<seq<Value>>, padding: int, ignore: set<string>, y: nat)
    requires Rectangular(matrix) && padding >= 0 && y < |matrix|
    requires forall x :: 0 <= x < |matrix[0]| && Ignored(matrix, ignore, x) ==> matrix[y][x].Plain?
    ensures var widths := Widths(Formatted(matrix), |matrix[0]|, padding);
      |Lines(Texts(matrix, ignore), widths)[y]| == Sum(widths, |matrix[0]|)
  {
    CellsFit(matrix, padding, ignore, y);
    LineAt(Texts(matrix, ignore), Widths(Formatted(matrix), |matrix[0]|, padding), y);
    RowFits(Texts(matrix, ignore)[y], Widths(Formatted(matrix), |matrix[0]|, padding), |matrix[0]|);
  }

  // ---------------------------------------------------------------------------
  // The tab-separated table

  /** `s.rstrip("\t")`. */
  function RStripTabs(s: string): string
  {
    s[..Kept(s, |s|)]
  }

  /** How much of the first `n` characters is left once the tabs at their end are stripped. */
  function Kept(s: string, n: nat): (k: nat)
    requires n <= |s|
    ensures k <= n
  {
    if n > 0 && s[n - 1] == '\t' then Kept(s, n - 1) else n
  }

  /** Stripping leaves a prefix that does not end in a tab, and only tabs after it. */
  lemma {:induction false} KeptSpec(s: string, n: nat)
    requires n <= |s|
    ensures var k := Kept(s, n); (k == 0 || s[k - 1] != '\t') && forall i :: k <= i < n ==> s[i] == '\t'
  {
    if n > 0 && s[n - 1] == '\t' {
      KeptSpec(s, n - 1);
    }
  }

  lemma RStripSpec(s: string)
    ensures var r := RStripTabs(s); r == [] || r[|r| - 1] != '\t'
    ensures var r := RStripTabs(s); |r| <= |s| && r == s[..|r|] && forall i :: |r| <= i < |s| ==> s[i] == '\t'
  {
    KeptSpec(s, |s|);
  }

  /** The first `n` cells of a row, each followed by a tab. */
  function TabCells(row: seq<string>, n: nat): string
    requires n <= |row|
  {
    if n == 0 then "" else TabCells(row, n - 1) + row[n - 1] + "\t"
  }

  /**
   * The first `y` rows of the tab-separated table: each row's cells
   * followed by tabs, those tabs at its end stripped, then a line break.
   */
  function Tabbed(cells: Grid, width: nat, y: nat): string
    requires Even(cells, width) && y <= |cells|
  {
    if y == 0 then "" else Tabbed(cells, width, y - 1) + RStripTabs(TabCells(cells[y - 1], width)) + "\n"
  }

  /** `tabbed`: every row's formatted cells followed by tabs, the trailing tabs stripped. */
  method TabbedTable(matrix: seq<seq<Value>>) returns (table: string)
    requires Rectangular(matrix)
    ensures table == Tabbed(Formatted(matrix), |matrix[0]|, |matrix|)
  {
    var width := |matrix[0]|;
    ghost var cells := Formatted(matrix);
    table := "";
    for y := 0 to |matrix|
      invariant table == Tabbed(cells, width, y)
    {
      var cellsTabbed := TabLine(matrix, y);
      TabbedStep(cells, width, y, table, cellsTabbed);
      table := RStripTabs(table + cellsTabbed) + "\n";
    }
  }

  /**
   * `tabbed` strips the tabs at the end of the whole text after each row,
   * which strips those of that row alone: the rows before end in a line
   * break. The row's line then does not end in a tab.
   */
  lemma TabbedStep(cells: Grid, width: nat, y: nat, table: string, line: string)
    requires Even(cells, width) && y < |cells|
    requires table == Tabbed(cells, width, y) && line == TabCells(cells[y], width)
    ensures RStripTabs(table + line) + "\n" == Tabbed(cells, width, y + 1)
    ensures var stripped := RStripTabs(line); stripped == [] || stripped[|stripped| - 1] != '\t'
  {
    assert table == [] || table[|table| - 1] == '\n';
    StripAfter(table, line);
    RStripSpec(line);
  }

  /** The formatted cells, each followed by a tab, that `tabbed` appends for row `y`. */
  method TabLine(matrix: seq<seq<Value>>, y: nat) returns (line: string)
    requires Rectangular(matrix) && y < |matrix|
    ensures line == TabCells(Formatted(matrix)[y], |matrix[0]|)
  {
    ghost var row := Formatted(matrix)[y];
    line := "";
    for x := 0 to |matrix[0]|
      invariant line == TabCells(row, x)
    {
      var text := Format(matrix[y][x]);
      FormattedAt(matrix, y, x);
      line := line + text + "\t";
    }
  }

  /** Stripping the tail of a text after a line break leaves the text before it alone. */
  lemma {:induction false} KeptAfter(a: string, b: string, n: nat)
    requires a == [] || a[|a| - 1] == '\n'
    requires n <= |b|
    ensures Kept(a + b, |a| + n) == |a| + Kept(b, n)
  {
    if n > 0 {
      assert (a + b)[|a| + n - 1] == b[n - 1];
      KeptAfter(a, b, n - 1);
    } else if a != [] {
      assert (a + b)[|a| - 1] == '\n';
    }
  }

  lemma StripAfter(a: string, b: string)
    requires a == [] || a[|a| - 1] == '\n'
    ensures RStripTabs(a + b) == a + RStripTabs(b)
  {
    KeptAfter(a, b, |b|);
    assert (a + b)[..|a| + Kept(b, |b|)] == a + b[..Kept(b, |b|)];
  }

  /** The cells followed by tabs are the cells joined by tabs, then one tab. */
  lemma {:induction false} TabCellsJoin(row: seq<string>, n: nat)
    requires 0 < n <= |row|
    ensures TabCells(row, n) == Join("\t", row[..n]) + "\t"
  {
    if n == 1 {
      assert row[..1] == [row[0]];
      assert TabCells(row, 0) == "";
    } else {
      TabCellsJoin(row, n - 1);
      JoinSnoc(row[..n - 1], row[n - 1]);
      assert row[..n - 1] + [row[n - 1]] == row[..n];
    }
  }

  lemma {:induction false} JoinSnoc(parts: seq<string>, last: string)
    requires |parts| > 0
    ensures Join("\t", parts + [last]) == Join("\t", parts) + "\t" + last
  {
    if |parts| == 1 {
      assert parts + [last] == [parts[0], last];
      assert [parts[0], last][1..] == [last];
    } else {
      assert (parts + [last])[1..] == parts[1..] + [last];
      JoinSnoc(parts[1..], last);
    }
  }

  lemma {:induction false} JoinEndsWithLast(parts: seq<string>)
    requires |parts| > 0 && parts[|parts| - 1] != "" && '\t' !in parts[|parts| - 1]
    ensures var j := Join("\t", parts); j != [] && j[|j| - 1] != '\t'
  {
    if |parts| > 1 {
      JoinEndsWithLast(parts[1..]);
    }
  }

  /**
   * A row whose cells hold no tab, and whose last cell is not blank, splits
   * at its tabs back into those cells.
   */
  lemma TabbedRowSplits(row: seq<string>)
    requires |row| > 0 && row[|row| - 1] != ""
    requires forall x :: 0 <= x < |row| ==> '\t' !in row[x]
    ensures Split(RStripTabs(TabCells(row, |row|)), '\t') == row
  {
    TabCellsJoin(row, |row|);
    assert row[..|row|] == row;
    var joined := Join("\t", row);
    JoinEndsWithLast(row);
    assert RStripTabs(joined + "\t") == joined by {
      var s := joined + "\t";
      assert s[|s| - 1] == '\t' && s[|joined| - 1] == joined[|joined| - 1];
      assert Kept(s, |s|) == |joined|;
      assert s[..|joined|] == joined;
    }
    SplitJoin(row, '\t');
  }

  /** A blank last cell is lost: the row `a`, `` is written as the single cell `A`. */
  lemma BlankLastCellLost()
    ensures var row := FormattedRow([[Plain("a"), Plain("")]], 0);
      row == ["A", ""] && Split(RStripTabs(TabCells(row, 2)), '\t') == ["A"]
  {
    var row := FormattedRow([[Plain("a"), Plain("")]], 0);
    assert row[0] == Title("a") == "A";
    assert row[1] == Title("") == "";
    assert TabCells(row, 2) == "A\t\t";
    assert RStripTabs("A\t\t") == "A" by {
      assert Kept("A\t\t", 3) == 1;
      assert "A\t\t"[..1] == "A";
    }
    assert Split("A", '\t') == ["A"];
  }
}
