/** `read`: pages of a file by line and column, and the proof that following the returned
    cursors rebuilds the file. */
module ReadPaging {
  import opened Wrappers
  import opened AsciiJson
  import opened ReadScope

  /** A cursor: 1-based line, 0-based column. */
  datatype Pos = Pos(line: nat, column: nat)

  function EndPos(lines: seq<string>): Pos {
    Pos(|lines| + 1, 0)
  }

  predicate ValidPos(lines: seq<string>, p: Pos) {
    && 1 <= p.line <= |lines| + 1
    && (if p.line <= |lines| then p.column <= |lines[p.line - 1]| else p.column == 0)
  }

  /** The whole remainder of the line at a cursor, as `_read` offers it. */
  function RowAt(lines: seq<string>, p: Pos): Row
    requires ValidPos(lines, p) && p.line <= |lines|
  {
    ReadRow(p.line, p.column, lines[p.line - 1][p.column..], false)
  }

  /** A row that copies characters of its line, and at least one unless it finishes the line. */
  predicate RowFrom(lines: seq<string>, row: Row) {
    && row.ReadRow?
    && 1 <= row.line <= |lines|
    && row.startColumn + |row.text| <= |lines[row.line - 1]|
    && row.text == lines[row.line - 1][row.startColumn..row.startColumn + |row.text|]
    && (row.text == "" ==> row.startColumn == |lines[row.line - 1]|)
  }

  /** Where reading goes on after a row. */
  function After(lines: seq<string>, row: Row): Pos
    requires RowFrom(lines, row)
  {
    var end := row.startColumn + |row.text|;
    if end == |lines[row.line - 1]| then Pos(row.line + 1, 0) else Pos(row.line, end)
  }

  /** The rows copy the text from `p` to `q` with no gap and no overlap. */
  ghost predicate Steps(lines: seq<string>, p: Pos, rows: seq<Row>, q: Pos) {
    if rows == [] then p == q
    else
      var last := rows[|rows| - 1];
      && RowFrom(lines, last)
      && Steps(lines, p, rows[..|rows| - 1], Pos(last.line, last.startColumn))
      && q == After(lines, last)
  }

  function NextPos(lines: seq<string>, page: Page): Pos
    requires page.ReadPage?
  {
    if page.nextLine.Some? && page.nextColumn.Some?
    then Pos(page.nextLine.value, page.nextColumn.value)
    else EndPos(lines)
  }

  /** The page as it stood while rows were being added. */
  function Bare(page: Page): Page
    requires page.ReadPage?
  {
    page.(nextLine := None, nextColumn := None, truncated := false)
  }

  /** A page ends only at the end of the file, after `count` lines, or because the budget
      leaves no room for one more character (or for one more empty row). */
  ghost predicate Stopped(lines: seq<string>, p: Pos, count: nat, page: Page, q: Pos)
    requires page.ReadPage? && ValidPos(lines, q)
  {
    || q.line > |lines|
    || q.line == p.line + count
    || !Fits(With(Bare(page), Cut(RowAt(lines, q), Min(1, |RowAt(lines, q).text|))))
    || CutAt(lines, page, q)
  }

  /** The last row was cut at `q`: with the character there it would not have fitted. */
  ghost predicate CutAt(lines: seq<string>, page: Page, q: Pos)
    requires page.ReadPage? && ValidPos(lines, q) && q.line <= |lines|
  {
    && page.rows != []
    && var last := page.rows[|page.rows| - 1];
       last.ReadRow? && last.line == q.line && last.startColumn + |last.text| == q.column
       && q.column < |lines[q.line - 1]|
       && !Fits(With(WithRows(Bare(page), page.rows[..|page.rows| - 1]),
                     ReadRow(q.line, last.startColumn, last.text + [lines[q.line - 1][q.column]], true)))
  }

  ghost predicate LinesWithin(rows: seq<Row>, lo: nat, hi: nat) {
    forall i :: 0 <= i < |rows| ==> rows[i].ReadRow? && lo <= rows[i].line < hi
  }

  /** The page copies the text from `p` to the cursor it returns, and makes progress. */
  ghost predicate Delivers(lines: seq<string>, p: Pos, page: Page) {
    && page.ReadPage?
    && page.nextLine.Some? == page.nextColumn.Some? == page.truncated
    && ValidPos(lines, NextPos(lines, page))
    && (page.truncated <==> NextPos(lines, page) != EndPos(lines))
    && Steps(lines, p, page.rows, NextPos(lines, page))
    && (p.line <= |lines| ==> page.rows != [])
  }

  ghost predicate ReadPageOk(name: string, lines: seq<string>, p: Pos, count: nat, page: Page) {
    && Delivers(lines, p, page)
    && page.name == name && page.totalLines == |lines|
    && LinesWithin(page.rows, p.line, p.line + count)
    && Stopped(lines, p, count, page, NextPos(lines, page))
    && JsonSize(page) <= MAX_OUTPUT
  }

  // ---------------------------------------------------------------- sizes

  lemma Constants()
    ensures Power10(8) == 100_000_000 && Power10(5) == 100_000 && Power10(9) == 1_000_000_000
  {
    assert Power10(3) == 1000;
    assert Power10(6) == 1_000_000;
  }

  lemma RowDigits(n: nat)
    requires n <= MAX_FILE + 1
    ensures DigitCount(n) <= 8
  {
    Constants();
    DigitCountBound(n, 8);
  }

  /** Whatever the name, the first row of a page has room for a character. */
  lemma FirstRowFits(name: string, total: nat, row: Row)
    requires Utf8Length(name) <= MAX_NAME && total <= MAX_FILE
    requires row.ReadRow? && row.line <= MAX_FILE && row.startColumn <= MAX_FILE && |row.text| <= 1
    ensures Fits(With(ReadPage(name, [], total, None, None, false), row))
  {
    EscapeBound(name);
    RowDigits(total);
    RowDigits(row.line);
    RowDigits(row.startColumn);
    if row.text != "" {
      assert EscapedLength(row.text[..0]) == 0;
    }
    RowCost(ReadPage(name, [], total, None, None, false), row);
  }

  lemma NextCost(page: Page, line: nat, column: nat)
    requires page.ReadPage? && page == Bare(page)
    requires line <= MAX_FILE && column <= MAX_FILE
    ensures JsonSize(page.(nextLine := Some(line), nextColumn := Some(column), truncated := true)) <= JsonSize(page) + 8
  {
    RowDigits(line);
    RowDigits(column);
  }

  // ---------------------------------------------------------------- one page

  /** The loop's state: an open page whose rows lead from `p` to `q`. */
  ghost predicate Reading(name: string, lines: seq<string>, p: Pos, count: nat, page: Page, q: Pos) {
    && page == ReadPage(name, page.rows, |lines|, None, None, false)
    && Steps(lines, p, page.rows, q)
    && LinesWithin(page.rows, p.line, p.line + count)
    && Fits(page)
  }

  lemma EmptyPageFits(name: string, total: nat)
    requires Utf8Length(name) <= MAX_NAME && total <= MAX_FILE
    ensures Fits(ReadPage(name, [], total, None, None, false))
  {
    var row := ReadRow(0, 0, "", false);
    FirstRowFits(name, total, row);
    RowCost(ReadPage(name, [], total, None, None, false), row);
  }

  lemma StepsSnoc(lines: seq<string>, p: Pos, rows: seq<Row>, row: Row)
    requires RowFrom(lines, row) && Steps(lines, p, rows, Pos(row.line, row.startColumn))
    ensures Steps(lines, p, rows + [row], After(lines, row))
  {
    var all := rows + [row];
    assert all[..|all| - 1] == rows && all[|all| - 1] == row;
  }

  lemma ReadingSnoc(name: string, lines: seq<string>, p: Pos, count: nat, before: Page, q: Pos, row: Row)
    requires Reading(name, lines, p, count, before, q) && RowFrom(lines, row) && q == Pos(row.line, row.startColumn)
    requires p.line <= row.line < p.line + count && Fits(With(before, row))
    ensures Reading(name, lines, p, count, With(before, row), After(lines, row))
  {
    StepsSnoc(lines, p, before.rows, row);
    var after := With(before, row);
    forall i | 0 <= i < |after.rows|
      ensures after.rows[i].ReadRow? && p.line <= after.rows[i].line < p.line + count
    {
      if i < |before.rows| {
        assert after.rows[i] == before.rows[i];
      }
    }
  }

  lemma NextCharacter(line: string, column: nat, used: nat)
    requires column + used < |line|
    ensures line[column..][..used + 1] == line[column..][..used] + [line[column + used]]
  {
  }

  /** `_append_text` stopped inside the line: one more character would not have fitted. */
  lemma StoppedInside(lines: seq<string>, before: Page, q: Pos, used: nat)
    requires before.ReadPage? && before == Bare(before) && ValidPos(lines, q) && q.line <= |lines|
    requires 0 < used < |RowAt(lines, q).text|
    requires !Fits(With(before, Cut(RowAt(lines, q), used + 1)))
    ensures CutAt(lines, With(before, Cut(RowAt(lines, q), used)), Pos(q.line, q.column + used))
  {
    var row := RowAt(lines, q);
    var after := With(before, Cut(row, used));
    NextCharacter(lines[q.line - 1], q.column, used);
    assert after.rows[..|after.rows| - 1] == before.rows;
    assert WithRows(Bare(after), before.rows) == before;
    assert Cut(row, used + 1)
        == ReadRow(q.line, q.column, row.text[..used] + [lines[q.line - 1][q.column + used]], true);
  }

  lemma CutRowFrom(lines: seq<string>, q: Pos, k: nat)
    requires ValidPos(lines, q) && q.line <= |lines| && k <= |RowAt(lines, q).text|
    requires k == 0 ==> RowAt(lines, q).text == ""
    ensures RowFrom(lines, Cut(RowAt(lines, q), k))
    ensures After(lines, Cut(RowAt(lines, q), k)) ==
            if k == |RowAt(lines, q).text| then Pos(q.line + 1, 0) else Pos(q.line, q.column + k)
  {
    assert lines[q.line - 1][q.column..][..k] == lines[q.line - 1][q.column..q.column + k];
  }

  lemma WholeRowFrom(lines: seq<string>, q: Pos)
    requires ValidPos(lines, q) && q.line <= |lines|
    ensures RowFrom(lines, RowAt(lines, q)) && After(lines, RowAt(lines, q)) == Pos(q.line + 1, 0)
  {
  }

  /** Reading is over: the page and the cursor where the next one starts. */
  ghost predicate Closed(name: string, lines: seq<string>, p: Pos, count: nat, page: Page, q: Pos) {
    && ValidPos(lines, q) && q.column <= MAX_FILE
    && Reading(name, lines, p, count, page, q)
    && Stopped(lines, p, count, page, q)
    && (p.line <= |lines| ==> page.rows != [])
  }

  /** Nothing more fits: only a page that holds something already can say so. */
  lemma NothingFits(name: string, lines: seq<string>, p: Pos, count: nat, page: Page, q: Pos)
    requires Utf8Length(name) <= MAX_NAME && |lines| <= MAX_FILE
    requires Reading(name, lines, p, count, page, q)
    requires ValidPos(lines, q) && q.line <= |lines| && |lines[q.line - 1]| <= MAX_FILE
    requires !Fits(With(page, Cut(RowAt(lines, q), Min(1, |RowAt(lines, q).text|))))
    ensures Closed(name, lines, p, count, page, q)
  {
    if page.rows == [] {
      var row := RowAt(lines, q);
      FirstRowFits(name, |lines|, Cut(row, Min(1, |row.text|)));
    }
    assert Bare(page) == page;
  }

  lemma AppendedWhole(name: string, lines: seq<string>, p: Pos, count: nat, before: Page, q: Pos, after: Page)
    requires Reading(name, lines, p, count, before, q)
    requires ValidPos(lines, q) && p.line <= q.line <= |lines| && q.line < p.line + count && Fits(after)
    requires var row := RowAt(lines, q);
             after == With(before, row) || after == With(before, Cut(row, |row.text|))
    ensures after.rows != [] && Reading(name, lines, p, count, after, Pos(q.line + 1, 0))
  {
    var row := RowAt(lines, q);
    WholeRowFrom(lines, q);
    CutRowFrom(lines, q, |row.text|);
    ReadingSnoc(name, lines, p, count, before, q, if after == With(before, row) then row else Cut(row, |row.text|));
  }

  lemma AppendedPart(name: string, lines: seq<string>, p: Pos, count: nat, before: Page, q: Pos, used: nat)
    requires Reading(name, lines, p, count, before, q)
    requires ValidPos(lines, q) && p.line <= q.line <= |lines| && q.line < p.line + count
    requires |lines[q.line - 1]| <= MAX_FILE && 0 < used < |RowAt(lines, q).text|
    requires Fits(With(before, Cut(RowAt(lines, q), used))) && !Fits(With(before, Cut(RowAt(lines, q), used + 1)))
    ensures Closed(name, lines, p, count, With(before, Cut(RowAt(lines, q), used)), Pos(q.line, q.column + used))
  {
    CutRowFrom(lines, q, used);
    ReadingSnoc(name, lines, p, count, before, q, Cut(RowAt(lines, q), used));
    StoppedInside(lines, before, q, used);
    ClosedCut(name, lines, p, count, With(before, Cut(RowAt(lines, q), used)), Pos(q.line, q.column + used));
  }

  lemma ClosedCut(name: string, lines: seq<string>, p: Pos, count: nat, page: Page, q: Pos)
    requires Reading(name, lines, p, count, page, q) && ValidPos(lines, q) && q.line <= |lines|
    requires |lines[q.line - 1]| <= MAX_FILE && CutAt(lines, page, q)
    ensures Closed(name, lines, p, count, page, q)
  {
  }

  /** The state at the top of `_read`'s loop, `number` being the next line. */
  ghost predicate AtLine(name: string, lines: seq<string>, p: Pos, count: nat, page: Page, number: nat, next: Pos) {
    && Reading(name, lines, p, count, page, next)
    && (if number <= p.line then page.rows == [] && next == p
        else ValidPos(lines, p) && page.rows != [] && next == Pos(number, 0))
  }

  datatype Progress = Next | Done | BadColumn

  /** Closing the page with its continuation cursor. */
  lemma Finished(name: string, lines: seq<string>, p: Pos, count: nat, open: Page, q: Pos)
    requires |lines| <= MAX_FILE && Closed(name, lines, p, count, open, q)
    ensures ReadPageOk(name, lines, p, count, Ended(lines, open, q))
  {
    if q.line <= |lines| {
      NextCost(open, q.line, q.column);
      EndedStopped(lines, p, count, open, q);
    }
  }

  /** The page with the cursor of what is left. */
  function Ended(lines: seq<string>, open: Page, q: Pos): Page
    requires open.ReadPage?
  {
    if q.line <= |lines| then open.(nextLine := Some(q.line), nextColumn := Some(q.column), truncated := true) else open
  }

  lemma EndedStopped(lines: seq<string>, p: Pos, count: nat, open: Page, q: Pos)
    requires open.ReadPage? && open == Bare(open) && ValidPos(lines, q) && Stopped(lines, p, count, open, q)
    ensures Stopped(lines, p, count, Ended(lines, open, q), q)
  {
    assert Bare(Ended(lines, open, q)) == open;
  }

  lemma ClosedAt(name: string, lines: seq<string>, p: Pos, count: nat, page: Page, number: nat, next: Pos)
    requires AtLine(name, lines, p, count, page, number, next) && 1 <= p.line && 1 <= number <= |lines| + 1
    requires number > |lines| || (number == p.line + count && p.line < number)
    requires p.line <= |lines| + 1 && (p.line > |lines| ==> p.column == 0)
    ensures Closed(name, lines, p, count, page, next)
  {
  }

  lemma StartAt(name: string, lines: seq<string>, p: Pos, count: nat)
    requires Utf8Length(name) <= MAX_NAME && |lines| <= MAX_FILE && p.line >= 1
    ensures AtLine(name, lines, p, count, ReadPage(name, [], |lines|, None, None, false), 1, p)
  {
    EmptyPageFits(name, |lines|);
  }

  /** The body of `_read`'s loop for one line. */
  method TakeLine(name: string, lines: seq<string>, p: Pos, count: nat, before: Page, number: nat, q: Pos)
    returns (progress: Progress, page: Page, next: Pos)
    requires Utf8Length(name) <= MAX_NAME && |lines| <= MAX_FILE
    requires AtLine(name, lines, p, count, before, number, q)
    requires 1 <= p.line && 1 <= number <= |lines| && 1 <= count
    requires number > p.line ==> number <= p.line + count
    requires |lines[number - 1]| <= MAX_FILE
    ensures progress == Next ==> AtLine(name, lines, p, count, page, number + 1, next) && number < p.line + count
    ensures progress == Done ==> ValidPos(lines, p) && Closed(name, lines, p, count, page, next)
    ensures progress == BadColumn ==> !ValidPos(lines, p)
  {
    if number < p.line {
      return Next, before, q;
    }
    if number >= p.line + count {
      ClosedAt(name, lines, p, count, before, number, q);
      return Done, before, q;
    }
    if q.column > |lines[number - 1]| {
      return BadColumn, before, q;
    }
    progress, page, next := AddRow(name, lines, p, count, before, q);
  }

  /** The rest of the line from the cursor on: all of it, as much as fits, or nothing. */
  method AddRow(name: string, lines: seq<string>, p: Pos, count: nat, before: Page, q: Pos)
    returns (progress: Progress, page: Page, next: Pos)
    requires Utf8Length(name) <= MAX_NAME && |lines| <= MAX_FILE
    requires AtLine(name, lines, p, count, before, q.line, q)
    requires ValidPos(lines, q) && p.line <= q.line <= |lines| && q.line < p.line + count
    requires |lines[q.line - 1]| <= MAX_FILE
    ensures ValidPos(lines, p) && progress != BadColumn
    ensures progress == Next ==> AtLine(name, lines, p, count, page, q.line + 1, next)
    ensures progress == Done ==> Closed(name, lines, p, count, page, next)
  {
    var row := RowAt(lines, q);
    var used: int;
    page, used := TakeText(before, row);
    if used < 0 {
      NothingFits(name, lines, p, count, page, q);
      return Done, page, q;
    }
    if used < |row.text| {
      AppendedPart(name, lines, p, count, before, q, used);
      return Done, page, Pos(q.line, q.column + used);
    }
    AppendedWhole(name, lines, p, count, before, q, page);
    return Next, page, Pos(q.line + 1, 0);
  }

  /** The loop of `_read`: walk the lines, add rows from the cursor on, stop where it must. */
  method ReadLines(name: string, lines: seq<string>, p: Pos, count: nat) returns (ok: bool, page: Page, next: Pos)
    requires Utf8Length(name) <= MAX_NAME && |lines| <= MAX_FILE
    requires forall i :: 0 <= i < |lines| ==> |lines[i]| <= MAX_FILE
    requires 1 <= p.line <= |lines| + 1 && 1 <= count
    requires p.line > |lines| ==> p.column == 0
    ensures ok <==> ValidPos(lines, p)
    ensures ok ==> Closed(name, lines, p, count, page, next)
  {
    page, next := ReadPage(name, [], |lines|, None, None, false), p;
    StartAt(name, lines, p, count);
    var number := 1;
    while number <= |lines|
      invariant 1 <= number <= |lines| + 1 && (number > p.line ==> number <= p.line + count)
      invariant AtLine(name, lines, p, count, page, number, next)
    {
      var progress: Progress;
      progress, page, next := TakeLine(name, lines, p, count, page, number, next);
      if progress != Next {
        return progress == Done, page, next;
      }
      number := number + 1;
    }
    ClosedAt(name, lines, p, count, page, number, next);
    ok := true;
  }

  method Read(name: string, text: string, startLine: int, startColumn: int, maxLines: int)
    returns (r: Result<Page>)
    requires Utf8Length(name) <= MAX_NAME && |text| <= MAX_FILE
    ensures r.Ok? <==> 1 <= startLine <= |Lines(text)| + 1 && 0 <= startColumn <= MAX_FILE
                       && 1 <= maxLines <= 400 && ValidPos(Lines(text), Pos(startLine, startColumn))
    ensures r.Ok? ==> ReadPageOk(name, Lines(text), Pos(startLine, startColumn), maxLines, r.value)
    ensures r.Err? ==> r.error == InvalidRequest
  {
    var total := TotalLines(text);
    LinesExact(text);
    LinesBounds(text);
    if !(1 <= startLine <= total + 1) || !(0 <= startColumn <= MAX_FILE) || !(1 <= maxLines <= 400) {
      return Err(InvalidRequest);
    }
    if startLine > total && startColumn != 0 {
      return Err(InvalidRequest);
    }
    var lines := SplitLines(text);
    var ok, page, next := ReadLines(name, lines, Pos(startLine, startColumn), maxLines);
    if !ok {
      return Err(InvalidRequest);
    }
    Finished(name, lines, Pos(startLine, startColumn), maxLines, page, next);
    if next.line <= total {
      page := page.(nextLine := Some(next.line), nextColumn := Some(next.column), truncated := true);
    }
    return Ok(page);
  }

  // ---------------------------------------------------------------- following the cursors

  /** A reader's copy of the file: a row at column 0 opens a line, any other continues the last. */
  function Rebuild(rows: seq<Row>): seq<string>
    requires forall i :: 0 <= i < |rows| ==> rows[i].ReadRow?
  {
    if rows == [] then []
    else
      var done, last := Rebuild(rows[..|rows| - 1]), rows[|rows| - 1];
      if last.startColumn == 0 || done == [] then done + [last.text]
      else done[..|done| - 1] + [done[|done| - 1] + last.text]
  }

  /** The part of the file before a cursor. */
  function Before(lines: seq<string>, q: Pos): seq<string>
    requires ValidPos(lines, q)
  {
    lines[..q.line - 1] + (if q.column > 0 then [lines[q.line - 1][..q.column]] else [])
  }

  /** What one row adds to the reader's copy. */
  lemma BeforeRow(lines: seq<string>, row: Row)
    requires RowFrom(lines, row)
    requires ValidPos(lines, Pos(row.line, row.startColumn))
    ensures ValidPos(lines, After(lines, row))
    ensures row.startColumn == 0 ==>
              Before(lines, After(lines, row)) == Before(lines, Pos(row.line, row.startColumn)) + [row.text]
    ensures row.startColumn > 0 ==>
              Before(lines, After(lines, row)) == lines[..row.line - 1] + [lines[row.line - 1][..row.startColumn] + row.text]
  {
    var line := lines[row.line - 1];
    var end := row.startColumn + |row.text|;
    assert line[..row.startColumn] + row.text == line[..end];
    if end == |line| {
      assert line[..end] == line;
      assert lines[..row.line] == lines[..row.line - 1] + [line];
    }
  }

  lemma {:induction false} RebuildSteps(lines: seq<string>, rows: seq<Row>, q: Pos)
    requires Steps(lines, Pos(1, 0), rows, q)
    ensures ValidPos(lines, q)
    ensures forall i :: 0 <= i < |rows| ==> rows[i].ReadRow?
    ensures Rebuild(rows) == Before(lines, q)
  {
    if rows == [] {
      assert Before(lines, q) == [];
    } else {
      var last := rows[|rows| - 1];
      var at := Pos(last.line, last.startColumn);
      RebuildSteps(lines, rows[..|rows| - 1], at);
      BeforeRow(lines, last);
      var done := Before(lines, at);
      if at.column > 0 {
        assert done[..|done| - 1] == lines[..at.line - 1];
        assert done[|done| - 1] == lines[at.line - 1][..at.column];
      }
    }
  }

  lemma {:induction false} StepsConcat(lines: seq<string>, p: Pos, a: seq<Row>, q: Pos, b: seq<Row>, r: Pos)
    requires Steps(lines, p, a, q) && Steps(lines, q, b, r)
    ensures Steps(lines, p, a + b, r)
  {
    if b == [] {
      assert a + b == a;
    } else {
      var last := b[|b| - 1];
      StepsConcat(lines, p, a, q, b[..|b| - 1], Pos(last.line, last.startColumn));
      assert (a + b)[..|a + b| - 1] == a + b[..|b| - 1];
    }
  }

  /** A conversation: every page was read at the cursor the page before it returned, with
      whatever line counts the client chose. */
  ghost predicate Chain(lines: seq<string>, p: Pos, pages: seq<Page>)
    decreases |pages|
  {
    pages != [] ==>
      && Delivers(lines, p, pages[0])
      && (|pages| > 1 ==> pages[0].truncated)
      && Chain(lines, NextPos(lines, pages[0]), pages[1..])
  }

  function AllRows(pages: seq<Page>): seq<Row> {
    if pages == [] then [] else pages[0].rows + AllRows(pages[1..])
  }

  function Reached(lines: seq<string>, p: Pos, pages: seq<Page>): Pos
    requires forall i :: 0 <= i < |pages| ==> pages[i].ReadPage?
  {
    if pages == [] then p else NextPos(lines, pages[|pages| - 1])
  }

  lemma {:induction false} ChainSteps(lines: seq<string>, p: Pos, pages: seq<Page>)
    requires Chain(lines, p, pages)
    ensures forall i :: 0 <= i < |pages| ==> pages[i].ReadPage?
    ensures Steps(lines, p, AllRows(pages), Reached(lines, p, pages))
    decreases |pages|
  {
    if pages != [] {
      var q := NextPos(lines, pages[0]);
      ChainSteps(lines, q, pages[1..]);
      StepsConcat(lines, p, pages[0].rows, q, AllRows(pages[1..]), Reached(lines, q, pages[1..]));
      assert Reached(lines, q, pages[1..]) == Reached(lines, p, pages);
    }
  }

  /** Round trip: at every point of a conversation the rows received rebuild exactly the part
      of the file before the cursor, and the whole file once no cursor is returned. */
  lemma PagingRoundTrip(lines: seq<string>, pages: seq<Page>)
    requires Chain(lines, Pos(1, 0), pages)
    ensures forall i :: 0 <= i < |pages| ==> pages[i].ReadPage?
    ensures ValidPos(lines, Reached(lines, Pos(1, 0), pages))
    ensures forall i :: 0 <= i < |AllRows(pages)| ==> AllRows(pages)[i].ReadRow?
    ensures Rebuild(AllRows(pages)) == Before(lines, Reached(lines, Pos(1, 0), pages))
    ensures pages != [] && !pages[|pages| - 1].truncated ==> Rebuild(AllRows(pages)) == lines
  {
    ChainSteps(lines, Pos(1, 0), pages);
    RebuildSteps(lines, AllRows(pages), Reached(lines, Pos(1, 0), pages));
    assert lines[..|lines|] == lines;
    if pages != [] {
      LastPage(lines, Pos(1, 0), pages);
    }
  }

  lemma {:induction false} LastPage(lines: seq<string>, p: Pos, pages: seq<Page>)
    requires pages != [] && Chain(lines, p, pages)
    ensures var last := pages[|pages| - 1];
            last.ReadPage? && (last.truncated <==> NextPos(lines, last) != EndPos(lines))
    decreases |pages|
  {
    if |pages| > 1 {
      LastPage(lines, NextPos(lines, pages[0]), pages[1..]);
    }
  }

  /** Characters and lines still to be delivered from a cursor on. */
  function Weight(lines: seq<string>, q: Pos): nat
    requires ValidPos(lines, q)
    decreases |lines| + 1 - q.line
  {
    if q.line > |lines| then 0
    else |lines[q.line - 1]| - q.column + 1 + Weight(lines, Pos(q.line + 1, 0))
  }

  lemma {:induction false} StepsWeight(lines: seq<string>, p: Pos, rows: seq<Row>, q: Pos)
    requires ValidPos(lines, p) && Steps(lines, p, rows, q)
    ensures ValidPos(lines, q)
    ensures Weight(lines, q) + |rows| <= Weight(lines, p)
  {
    if rows != [] {
      var last := rows[|rows| - 1];
      StepsWeight(lines, p, rows[..|rows| - 1], Pos(last.line, last.startColumn));
    }
  }

  /** Every conversation is finite: it has at most one page per character and line of the file. */
  lemma {:induction false} PagingEnds(lines: seq<string>, p: Pos, pages: seq<Page>)
    requires ValidPos(lines, p) && Chain(lines, p, pages)
    ensures |pages| <= Weight(lines, p) + 1
    decreases |pages|
  {
    if |pages| > 1 {
      var q := NextPos(lines, pages[0]);
      StepsWeight(lines, p, pages[0].rows, q);
      assert pages[0].rows != [];
      PagingEnds(lines, q, pages[1..]);
    }
  }

  // ---------------------------------------------------------------- the row flag

  /** A row can say `truncated` although it carries its whole line: exactly when the line
      misses the budget by the one byte that writing `true` for `false` saves. */
  lemma FlaggedWhole(before: Page, row: Row, after: Page, used: int)
    requires row.ReadRow? && !row.truncated && Appended(before, row, after, used)
    ensures (used == |row.text| && after != With(before, row)) <==> JsonSize(With(before, row)) == PAYLOAD_BUDGET + 1
  {
    CutWhole(before, row);
    var cut := Cut(row, |row.text|);
    assert With(before, row).rows[|before.rows|] == row != cut == With(before, cut).rows[|before.rows|];
  }

  lemma {:induction false} PlainLength(n: nat)
    ensures EscapedLength(seq(n, i => 'a')) == n
  {
    if n > 0 {
      var s := seq(n, i => 'a');
      assert s[..n - 1] == seq(n - 1, i => 'a');
      PlainLength(n - 1);
    }
  }

  /** Such a file exists: one line of 61249 letters. */
  lemma FlaggedWholeHappens(after: Page, used: int)
    requires Appended(ReadPage("f", [], 1, None, None, false), ReadRow(1, 0, seq(61249, i => 'a'), false), after, used)
    ensures used == 61249 && after.rows == [ReadRow(1, 0, seq(61249, i => 'a'), true)]
  {
    var before := ReadPage("f", [], 1, None, None, false);
    var row := ReadRow(1, 0, seq(61249, i => 'a'), false);
    PlainLength(61249);
    RowCost(before, row);
    assert EscapedLength("f") == 1 by {
      assert "f"[..0] == "";
    }
    FlaggedWhole(before, row, after, used);
    assert row.text[..61249] == row.text;
  }
}
