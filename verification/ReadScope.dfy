/** The fixed-scope reader: paged `read`, `search` and `list` under a byte budget. Files are
    given as already decoded text; opening and hashing them is not part of this model. */
module ReadScope {
  import opened Wrappers
  import opened AsciiJson

  const MAX_OUTPUT: nat := 64 * 1024
  const PAYLOAD_BUDGET: nat := 60 * 1024
  const MAX_FILE: nat := 64 * 1024 * 1024
  const MAX_TOTAL: nat := 96 * 1024 * 1024
  const MAX_NAME: nat := 4096
  const MAX_FILES: nat := 20001

  // ---------------------------------------------------------------- results

  datatype Row =
    | ReadRow(line: nat, startColumn: nat, text: string, truncated: bool)
    | MatchRow(name: string, line: nat, column: nat, startColumn: nat, text: string, truncated: bool)
    | FileRow(name: string, size: nat, sha256: string)

  datatype Page =
    | ReadPage(name: string, rows: seq<Row>, totalLines: nat,
               nextLine: Option<nat>, nextColumn: Option<nat>, truncated: bool)
    | SearchPage(rows: seq<Row>, nextCursor: Option<nat>, truncated: bool)
    | ListPage(rows: seq<Row>, total: nat, nextOffset: Option<nat>, truncated: bool)

  function DumpBool(b: bool): string {
    if b then "true" else "false"
  }

  function DumpOption(n: Option<nat>): string {
    match n
    case None => "null"
    case Some(v) => Digits(v)
  }

  function DumpRow(row: Row): string {
    match row
    case ReadRow(line, start, text, truncated) =>
      "{\"line\": " + Digits(line) + ", \"start_column\": " + Digits(start)
      + ", \"text\": " + Quote(text) + ", \"truncated\": " + DumpBool(truncated) + "}"
    case MatchRow(name, line, column, start, text, truncated) =>
      "{\"name\": " + Quote(name) + ", \"line\": " + Digits(line) + ", \"column\": " + Digits(column)
      + ", \"start_column\": " + Digits(start) + ", \"text\": " + Quote(text)
      + ", \"truncated\": " + DumpBool(truncated) + "}"
    case FileRow(name, size, sha256) =>
      "{\"name\": " + Quote(name) + ", \"size\": " + Digits(size) + ", \"sha256\": " + Quote(sha256) + "}"
  }

  function DumpRows(rows: seq<Row>): string {
    if rows == [] then ""
    else DumpRows(rows[..|rows| - 1]) + (if |rows| == 1 then "" else ", ") + DumpRow(rows[|rows| - 1])
  }

  /** `json.dumps` of the tool result, keys in insertion order. */
  function Dump(page: Page): string {
    match page
    case ReadPage(name, rows, total, nextLine, nextColumn, truncated) =>
      "{\"op\": \"read\", \"name\": " + Quote(name) + ", \"lines\": [" + DumpRows(rows)
      + "], \"total_lines\": " + Digits(total) + ", \"next_start_line\": " + DumpOption(nextLine)
      + ", \"next_start_column\": " + DumpOption(nextColumn) + ", \"truncated\": " + DumpBool(truncated) + "}"
    case SearchPage(rows, nextCursor, truncated) =>
      "{\"op\": \"search\", \"matches\": [" + DumpRows(rows) + "], \"next_cursor\": " + DumpOption(nextCursor)
      + ", \"truncated\": " + DumpBool(truncated) + "}"
    case ListPage(rows, total, nextOffset, truncated) =>
      "{\"op\": \"list\", \"files\": [" + DumpRows(rows) + "], \"total\": " + Digits(total)
      + ", \"next_offset\": " + DumpOption(nextOffset) + ", \"truncated\": " + DumpBool(truncated) + "}"
  }

  // The same sizes as numbers.

  function QuotedSize(s: string): nat {
    2 + EscapedLength(s)
  }

  function BoolSize(b: bool): nat {
    if b then 4 else 5
  }

  function OptionSize(n: Option<nat>): nat {
    match n
    case None => 4
    case Some(v) => DigitCount(v)
  }

  function RowSize(row: Row): nat {
    match row
    case ReadRow(line, start, text, truncated) =>
      53 + DigitCount(line) + DigitCount(start) + QuotedSize(text) + BoolSize(truncated)
    case MatchRow(name, line, column, start, text, truncated) =>
      75 + QuotedSize(name) + DigitCount(line) + DigitCount(column) + DigitCount(start)
      + QuotedSize(text) + BoolSize(truncated)
    case FileRow(name, size, sha256) =>
      32 + QuotedSize(name) + DigitCount(size) + QuotedSize(sha256)
  }

  function RowsSize(rows: seq<Row>): nat {
    if rows == [] then 0
    else RowsSize(rows[..|rows| - 1]) + (if |rows| == 1 then 0 else 2) + RowSize(rows[|rows| - 1])
  }

  function JsonSize(page: Page): nat {
    match page
    case ReadPage(name, rows, total, nextLine, nextColumn, truncated) =>
      113 + QuotedSize(name) + RowsSize(rows) + DigitCount(total) + OptionSize(nextLine)
      + OptionSize(nextColumn) + BoolSize(truncated)
    case SearchPage(rows, nextCursor, truncated) =>
      63 + RowsSize(rows) + OptionSize(nextCursor) + BoolSize(truncated)
    case ListPage(rows, total, nextOffset, truncated) =>
      70 + RowsSize(rows) + DigitCount(total) + OptionSize(nextOffset) + BoolSize(truncated)
  }

  lemma OptionSizeExact(n: Option<nat>)
    ensures OptionSize(n) == |DumpOption(n)|
  {
    if n.Some? {
      DigitCountExact(n.value);
    }
  }

  lemma RowSizeExact(row: Row)
    ensures RowSize(row) == |DumpRow(row)|
  {
    match row
    case ReadRow(line, start, text, truncated) =>
      DigitCountExact(line);
      DigitCountExact(start);
      EscapedLengthExact(text);
    case MatchRow(name, line, column, start, text, truncated) =>
      EscapedLengthExact(name);
      DigitCountExact(line);
      DigitCountExact(column);
      DigitCountExact(start);
      EscapedLengthExact(text);
    case FileRow(name, size, sha256) =>
      EscapedLengthExact(name);
      DigitCountExact(size);
      EscapedLengthExact(sha256);
  }

  lemma {:induction false} RowsSizeExact(rows: seq<Row>)
    ensures RowsSize(rows) == |DumpRows(rows)|
  {
    if rows != [] {
      RowsSizeExact(rows[..|rows| - 1]);
      RowSizeExact(rows[|rows| - 1]);
    }
  }

  /** The number compared with the budget is the length of the serialized page. */
  lemma JsonSizeExact(page: Page)
    ensures JsonSize(page) == |Dump(page)|
  {
    RowsSizeExact(page.rows);
    match page
    case ReadPage(name, rows, total, nextLine, nextColumn, truncated) =>
      EscapedLengthExact(name);
      DigitCountExact(total);
      OptionSizeExact(nextLine);
      OptionSizeExact(nextColumn);
    case SearchPage(rows, nextCursor, truncated) =>
      OptionSizeExact(nextCursor);
    case ListPage(rows, total, nextOffset, truncated) =>
      DigitCountExact(total);
      OptionSizeExact(nextOffset);
  }

  predicate Fits(page: Page) {
    JsonSize(page) <= PAYLOAD_BUDGET
  }

  function WithRows(page: Page, rows: seq<Row>): Page {
    match page
    case ReadPage(name, _, total, nextLine, nextColumn, truncated) =>
      ReadPage(name, rows, total, nextLine, nextColumn, truncated)
    case SearchPage(_, nextCursor, truncated) => SearchPage(rows, nextCursor, truncated)
    case ListPage(_, total, nextOffset, truncated) => ListPage(rows, total, nextOffset, truncated)
  }

  function With(page: Page, row: Row): Page {
    WithRows(page, page.rows + [row])
  }

  /** What one more row adds to the serialized page. */
  lemma RowCost(page: Page, row: Row)
    ensures JsonSize(With(page, row)) == JsonSize(page) + RowSize(row) + (if page.rows == [] then 0 else 2)
  {
    assert (page.rows + [row])[..|page.rows|] == page.rows;
  }

  /** The row a binary-search probe leaves in the page. */
  function Cut(row: Row, k: nat): Row
    requires !row.FileRow? && k <= |row.text|
  {
    row.(text := row.text[..k], truncated := true)
  }

  function Flag(row: Row, truncated: bool): Row
    requires !row.FileRow?
  {
    match row
    case ReadRow(line, start, text, _) => ReadRow(line, start, text, truncated)
    case MatchRow(name, line, column, start, text, _) => MatchRow(name, line, column, start, text, truncated)
  }

  /** Keeping more of the text never makes the page smaller, and every character counts. */
  lemma CutMonotone(page: Page, row: Row, i: nat, j: nat)
    requires !row.FileRow? && i <= j <= |row.text|
    ensures JsonSize(With(page, Cut(row, i))) + (j - i) <= JsonSize(With(page, Cut(row, j)))
  {
    RowCost(page, Cut(row, i));
    RowCost(page, Cut(row, j));
    EscapePrefix(row.text, i, j);
  }

  /** Marking an untruncated row as truncated saves exactly one byte. */
  lemma CutWhole(page: Page, row: Row)
    requires !row.FileRow? && !row.truncated
    ensures JsonSize(With(page, Cut(row, |row.text|))) == JsonSize(With(page, row)) - 1
  {
    RowCost(page, Cut(row, |row.text|));
    RowCost(page, row);
    assert row.text[..|row.text|] == row.text;
  }

  /** What `_append_text` promises: the whole row when it fits, otherwise the longest prefix
      that fits, otherwise nothing. `used` is -1 when the row was taken back. */
  ghost predicate Appended(before: Page, row: Row, after: Page, used: int)
    requires !row.FileRow?
  {
    if Fits(With(before, row)) then
      after == With(before, row) && used == |row.text|
    else if used < 0 then
      used == -1 && after == before
      && (row.text == "" ==> !Fits(With(before, Cut(row, 0))))
      && forall k :: 0 < k <= |row.text| ==> !Fits(With(before, Cut(row, k)))
    else
      used <= |row.text| && after == With(before, Cut(row, used)) && Fits(after)
      && (row.text != "" ==> used > 0)
      && forall k :: used < k <= |row.text| ==> !Fits(With(before, Cut(row, k)))
  }

  method AppendText(page: Page, row: Row) returns (after: Page, used: int)
    requires !row.FileRow? && !row.truncated
    ensures Appended(page, row, after, used)
  {
    after := With(page, row);
    if Fits(after) {
      return after, |row.text|;
    }
    var low, high := 0, |row.text|;
    while low < high
      invariant 0 <= low <= high <= |row.text|
      invariant low > 0 ==> Fits(With(page, Cut(row, low)))
      invariant forall k :: high < k <= |row.text| ==> !Fits(With(page, Cut(row, k)))
    {
      var middle := (low + high + 1) / 2;
      after := With(page, Cut(row, middle));
      if Fits(after) {
        low := middle;
      } else {
        forall k | middle <= k <= |row.text| ensures !Fits(With(page, Cut(row, k))) {
          CutMonotone(page, row, middle, k);
        }
        high := middle - 1;
      }
    }
    after := With(page, Cut(row, low));
    if low == 0 && (row.text != "" || !Fits(after)) {
      return page, -1;
    }
    return after, low;
  }

  function Min(a: nat, b: nat): nat {
    if a < b then a else b
  }

  /** What `_append_text` did, without the quantifier: it took `used` characters and no more would fit. */
  predicate Took(before: Page, row: Row, after: Page, used: int)
    requires !row.FileRow?
  {
    if used < 0 then after == before && !Fits(With(before, Cut(row, Min(1, |row.text|))))
    else if used < |row.text| then
      used > 0 && after == With(before, Cut(row, used)) && Fits(after) && !Fits(With(before, Cut(row, used + 1)))
    else
      used == |row.text| && Fits(after) && (after == With(before, row) || after == With(before, Cut(row, |row.text|)))
  }

  lemma AppendedTook(before: Page, row: Row, after: Page, used: int)
    requires !row.FileRow? && Appended(before, row, after, used)
    ensures Took(before, row, after, used)
  {
  }

  method TakeText(before: Page, row: Row) returns (after: Page, used: int)
    requires !row.FileRow? && !row.truncated
    ensures Took(before, row, after, used)
  {
    after, used := AppendText(before, row);
    AppendedTook(before, row, after, used);
  }

  // ---------------------------------------------------------------- lines

  /** First position at or after `start` where `c` stands, or |s|. */
  function FindChar(s: string, c: char, start: nat): (i: nat)
    requires start <= |s|
    ensures start <= i <= |s|
    ensures i < |s| ==> s[i] == c
    ensures forall k :: start <= k < i ==> s[k] != c
    decreases |s| - start
  {
    if start == |s| || s[start] == c then start else FindChar(s, c, start + 1)
  }

  /** The lines of a text from `start` on; a final newline opens no further line. */
  function LinesFrom(value: string, start: nat): (lines: seq<string>)
    requires start <= |value|
    decreases |value| - start
  {
    if start == |value| then []
    else
      var end := FindChar(value, '\n', start);
      if end == |value| then [value[start..]] else [value[start..end]] + LinesFrom(value, end + 1)
  }

  function Lines(value: string): seq<string> {
    LinesFrom(value, 0)
  }

  method SplitLines(value: string) returns (lines: seq<string>)
    ensures lines == Lines(value)
  {
    lines := [];
    var start := 0;
    while start < |value|
      invariant 0 <= start <= |value|
      invariant lines + LinesFrom(value, start) == Lines(value)
    {
      var end := FindChar(value, '\n', start);
      if end == |value| {
        lines := lines + [value[start..]];
        return;
      }
      lines := lines + [value[start..end]];
      start := end + 1;
    }
  }

  function Newlines(s: string): nat {
    if s == "" then 0 else (if s[0] == '\n' then 1 else 0) + Newlines(s[1..])
  }

  /** `text.count("\n") + bool(text and not text.endswith("\n"))` */
  function TotalLines(text: string): nat {
    Newlines(text) + (if text != "" && text[|text| - 1] != '\n' then 1 else 0)
  }

  function Join(lines: seq<string>): string {
    if lines == [] then "" else lines[0] + "\n" + Join(lines[1..])
  }

  lemma {:induction false} NewlinesSplit(a: string, b: string)
    ensures Newlines(a + b) == Newlines(a) + Newlines(b)
  {
    if a == "" {
      assert a + b == b;
    } else {
      NewlinesSplit(a[1..], b);
      assert (a + b)[1..] == a[1..] + b;
    }
  }

  lemma {:induction false} NoNewlines(s: string)
    requires '\n' !in s
    ensures Newlines(s) == 0
  {
    if s != "" {
      NoNewlines(s[1..]);
    }
  }

  lemma TotalLinesSplit(a: string, rest: string)
    requires '\n' !in a
    ensures TotalLines(a + "\n" + rest) == 1 + TotalLines(rest)
  {
    NoNewlines(a);
    NewlinesSplit(a + "\n", rest);
    NewlinesSplit(a, "\n");
    assert Newlines("\n") == 1;
  }

  lemma {:induction false} LinesFromCount(value: string, start: nat)
    requires start <= |value|
    ensures |LinesFrom(value, start)| == TotalLines(value[start..])
    decreases |value| - start
  {
    if start < |value| {
      var end := FindChar(value, '\n', start);
      if end == |value| {
        assert value[start..end] == value[start..];
        NoNewlines(value[start..]);
      } else {
        LinesFromCount(value, end + 1);
        TotalLinesSplit(value[start..end], value[end + 1..]);
        assert value[start..] == value[start..end] + "\n" + value[end + 1..];
      }
    }
  }

  lemma {:induction false} LinesFromHoldNoNewline(value: string, start: nat)
    requires start <= |value|
    ensures forall i :: 0 <= i < |LinesFrom(value, start)| ==> '\n' !in LinesFrom(value, start)[i]
    decreases |value| - start
  {
    if start < |value| {
      var end := FindChar(value, '\n', start);
      if end < |value| {
        LinesFromHoldNoNewline(value, end + 1);
      }
    }
  }

  lemma {:induction false} LinesFromJoin(value: string, start: nat)
    requires start <= |value|
    ensures Join(LinesFrom(value, start)) ==
            value[start..] + (if start < |value| && value[|value| - 1] != '\n' then "\n" else "")
    decreases |value| - start
  {
    if start < |value| {
      var end := FindChar(value, '\n', start);
      if end == |value| {
        assert Join([value[start..]]) == value[start..] + "\n" + Join([]);
      } else {
        LinesFromJoin(value, end + 1);
        var tail := LinesFrom(value, end + 1);
        assert ([value[start..end]] + tail)[1..] == tail;
        assert value[start..] == value[start..end] + "\n" + value[end + 1..];
      }
    }
  }

  /** `_lines` loses nothing: it yields as many lines as `_read` counts, none holds a newline,
      and joining them gives the text back up to a missing final newline. */
  lemma LinesExact(text: string)
    ensures |Lines(text)| == TotalLines(text)
    ensures forall i :: 0 <= i < |Lines(text)| ==> '\n' !in Lines(text)[i]
    ensures Join(Lines(text)) == text + (if text != "" && text[|text| - 1] != '\n' then "\n" else "")
  {
    LinesFromCount(text, 0);
    LinesFromHoldNoNewline(text, 0);
    LinesFromJoin(text, 0);
    assert text[0..] == text;
  }

  lemma {:induction false} LinesFromBounds(value: string, start: nat)
    requires start <= |value|
    ensures |LinesFrom(value, start)| <= |value| - start
    ensures forall i :: 0 <= i < |LinesFrom(value, start)| ==> |LinesFrom(value, start)[i]| <= |value|
    decreases |value| - start
  {
    if start < |value| {
      var end := FindChar(value, '\n', start);
      if end < |value| {
        LinesFromBounds(value, end + 1);
      }
    }
  }

  lemma LinesBounds(text: string)
    ensures |Lines(text)| <= |text|
    ensures forall i :: 0 <= i < |Lines(text)| ==> |Lines(text)[i]| <= |text|
  {
    LinesFromBounds(text, 0);
  }
}
