/** `search` and `list`: pages by position, and the proof that following the cursors yields
    every matching line, and every name, exactly once and in order. */
module ReadSearch {
  import opened Wrappers
  import opened AsciiJson
  import opened ReadScope

  // ---------------------------------------------------------------- what search looks for

  predicate MatchAt(line: string, query: string, k: nat) {
    k + |query| <= |line| && line[k..k + |query|] == query
  }

  /** `line.find(query)`: the first position where `query` stands, or -1. */
  function Find(line: string, query: string, start: nat): (i: int)
    requires start <= |line| && query != ""
    ensures i == -1 || (start <= i && MatchAt(line, query, i))
    ensures forall k :: start <= k && (i == -1 || k < i) ==> !MatchAt(line, query, k)
    decreases |line| - start
  {
    if start + |query| > |line| then -1
    else if line[start..start + |query|] == query then start
    else
      assert !MatchAt(line, query, start);
      Find(line, query, start + 1)
  }

  datatype Hit = Hit(name: string, line: nat, column: nat, text: string)

  /** The matching lines of one file from line index `i` on, one hit per line. */
  function LineHits(name: string, lines: seq<string>, i: nat, query: string): seq<Hit>
    requires i <= |lines| && query != ""
    decreases |lines| - i
  {
    if i == |lines| then []
    else
      var column := Find(lines[i], query, 0);
      (if column < 0 then [] else [Hit(name, i + 1, column, lines[i])]) + LineHits(name, lines, i + 1, query)
  }

  datatype File = File(name: string, text: string)

  function Hits(files: seq<File>, query: string): seq<Hit>
    requires query != ""
  {
    if files == [] then []
    else LineHits(files[0].name, Lines(files[0].text), 0, query) + Hits(files[1..], query)
  }

  function ExcerptStart(column: nat): nat {
    if column > 100 then column - 100 else 0
  }

  /** The excerpt offered for a hit, centred on the match. */
  function HitRow(hit: Hit): Row
    requires hit.column <= |hit.text|
  {
    MatchRow(hit.name, hit.line, hit.column, ExcerptStart(hit.column), hit.text[ExcerptStart(hit.column)..], false)
  }

  predicate SmallHit(hit: Hit) {
    && Utf8Length(hit.name) <= MAX_NAME && hit.line <= MAX_FILE
    && hit.column < |hit.text| <= MAX_FILE
  }

  /** A row shows the hit: its position, a non-empty prefix of the excerpt, and an honest flag. */
  predicate Shows(row: Row, hit: Hit) {
    && row.MatchRow? && hit.column < |hit.text|
    && var offered := HitRow(hit);
    && row.name == hit.name && row.line == hit.line && row.column == hit.column
    && row.startColumn == offered.startColumn
    && 0 < |row.text| <= |offered.text| && row.text == offered.text[..|row.text|]
    && (row.truncated <==> offered.startColumn > 0 || |row.text| < |offered.text|)
  }

  // ---------------------------------------------------------------- one page of matches

  predicate AllFound(hits: seq<Hit>) {
    forall i :: 0 <= i < |hits| ==> SmallHit(hits[i])
  }

  /** The rows show consecutive hits from `cursor` on. */
  predicate AllShown(hits: seq<Hit>, cursor: nat, rows: seq<Row>) {
    cursor + |rows| <= |hits| && forall i :: 0 <= i < |rows| ==> Shows(rows[i], hits[cursor + i])
  }

  /** The state of the search loops after `position` hits. */
  ghost predicate Searching(hits: seq<Hit>, cursor: nat, limit: nat, page: Page, position: nat) {
    && page == SearchPage(page.rows, None, false)
    && position <= |hits|
    && (if position < cursor then page.rows == []
        else cursor + |page.rows| == position && AllShown(hits, cursor, page.rows))
    && |page.rows| <= limit
    && JsonSize(page) <= PAYLOAD_BUDGET + 1
  }

  function Open(rows: seq<Row>): Page {
    SearchPage(rows, None, false)
  }

  /** A page ends before the last hit only because it is full: it has `limit` rows, its last
      excerpt was cut at the budget, or the next hit has no room for one character. */
  ghost predicate Full(hits: seq<Hit>, cursor: nat, limit: nat, rows: seq<Row>)
    requires AllFound(hits) && AllShown(hits, cursor, rows)
  {
    || |rows| == limit
    || (rows != [] && CutShort(hits[cursor + |rows| - 1], rows[..|rows| - 1], rows[|rows| - 1]))
    || (cursor + |rows| < |hits| && !Fits(With(Open(rows), Cut(HitRow(hits[cursor + |rows|]), 1))))
  }

  ghost predicate CutShort(hit: Hit, before: seq<Row>, last: Row)
    requires Shows(last, hit)
  {
    && |last.text| < |HitRow(hit).text|
    && !Fits(With(Open(before), Cut(HitRow(hit), |last.text| + 1)))
  }

  /** The page shows hits from `cursor` on, returns the position after them, and makes progress. */
  predicate SearchDelivers(hits: seq<Hit>, cursor: nat, page: Page) {
    && page.SearchPage?
    && AllShown(hits, cursor, page.rows)
    && page.truncated == page.nextCursor.Some?
    && (page.nextCursor.None? ==> cursor + |page.rows| == |hits|)
    && (page.nextCursor.Some? ==> page.nextCursor.value == cursor + |page.rows| && page.rows != [])
  }

  ghost predicate SearchPageOk(hits: seq<Hit>, cursor: nat, limit: nat, page: Page) {
    && AllFound(hits) && SearchDelivers(hits, cursor, page)
    && (page.nextCursor.Some? ==> Full(hits, cursor, limit, page.rows))
    && |page.rows| <= limit
    && JsonSize(page) <= MAX_OUTPUT
  }

  lemma Powers()
    ensures Power10(5) == 100_000 && Power10(8) == 100_000_000 && Power10(9) == 1_000_000_000
  {
    assert Power10(3) == 1000;
    assert Power10(6) == 1_000_000;
  }

  lemma SmallDigits(n: nat)
    requires n <= MAX_TOTAL
    ensures DigitCount(n) <= 9
  {
    Powers();
    DigitCountBound(n, 9);
  }

  /** Whatever the name, the first match of a page has room for a character. */
  lemma FirstMatchFits(hit: Hit)
    requires SmallHit(hit)
    ensures HitRow(hit).text != "" && Fits(With(SearchPage([], None, false), Cut(HitRow(hit), 1)))
  {
    var row := Cut(HitRow(hit), 1);
    EscapeBound(hit.name);
    SmallDigits(row.line);
    SmallDigits(row.column);
    SmallDigits(row.startColumn);
    assert EscapedLength(row.text[..0]) == 0;
    RowCost(SearchPage([], None, false), row);
  }

  lemma CursorCost(page: Page, cursor: nat)
    requires page.SearchPage? && page == SearchPage(page.rows, None, false) && cursor <= MAX_TOTAL
    ensures JsonSize(SearchPage(page.rows, Some(cursor), true)) <= JsonSize(page) + 4
  {
    SmallDigits(cursor);
  }

  /** Correcting the flag of the last row costs at most the byte it saved. */
  lemma FlagCost(before: Page, row: Row, flag: bool)
    requires before.SearchPage? && row.MatchRow?
    ensures JsonSize(With(before, Flag(row, flag))) <= JsonSize(With(before, row)) + 1
    ensures row.truncated ==> JsonSize(With(before, Flag(row, false))) == JsonSize(With(before, row)) + 1
    ensures !row.truncated ==> JsonSize(With(before, Flag(row, flag))) <= JsonSize(With(before, row))
  {
    RowCost(before, row);
    RowCost(before, Flag(row, flag));
    RowCost(before, Flag(row, false));
  }

  lemma ClosePage(hits: seq<Hit>, cursor: nat, limit: nat, page: Page, position: nat)
    requires Searching(hits, cursor, limit, page, position) && AllFound(hits) && |hits| <= MAX_TOTAL
    requires cursor <= position && page.rows != [] && Full(hits, cursor, limit, page.rows)
    ensures SearchPageOk(hits, cursor, limit, SearchPage(page.rows, Some(position), true))
  {
    CursorCost(page, position);
  }

  /** The row `_search` ends up with for a hit of which `used` characters fit. */
  function ShownRow(hit: Hit, used: nat): Row
    requires hit.column <= |hit.text| && used <= |HitRow(hit).text|
  {
    var offered := HitRow(hit);
    MatchRow(hit.name, hit.line, hit.column, offered.startColumn, offered.text[..used],
             offered.startColumn > 0 || used < |offered.text|)
  }

  lemma ShownRowShows(hit: Hit, used: nat)
    requires hit.column < |hit.text| && 0 < used <= |HitRow(hit).text|
    ensures Shows(ShownRow(hit, used), hit) && |ShownRow(hit, used).text| == used
  {
  }

  /** `_append_text` followed by the flag correction, in one step. */
  lemma AppendedRow(before: Page, hit: Hit, after: Page, used: nat)
    requires before.SearchPage? && hit.column < |hit.text|
    requires Took(before, HitRow(hit), after, used) && 0 < used <= |HitRow(hit).text|
    ensures after.SearchPage? && |after.rows| == |before.rows| + 1
    ensures var last := after.rows[|before.rows|];
            last.MatchRow? && Flag(last, ShownRow(hit, used).truncated) == ShownRow(hit, used)
    ensures JsonSize(With(before, ShownRow(hit, used))) <= PAYLOAD_BUDGET + 1
    ensures used < |HitRow(hit).text| ==> !Fits(With(before, Cut(HitRow(hit), used + 1)))
  {
    var row := HitRow(hit);
    assert row.text[..|row.text|] == row.text;
    var added := if after == With(before, row) then row else Cut(row, used);
    assert after.rows[|before.rows|] == added;
    FlagCost(before, added, ShownRow(hit, used).truncated);
  }

  lemma AllShownSnoc(hits: seq<Hit>, cursor: nat, rows: seq<Row>, row: Row)
    requires AllShown(hits, cursor, rows) && cursor + |rows| < |hits| && Shows(row, hits[cursor + |rows|])
    ensures AllShown(hits, cursor, rows + [row])
  {
    forall i | 0 <= i < |rows| + 1 ensures Shows((rows + [row])[i], hits[cursor + i]) {
      if i < |rows| {
        assert (rows + [row])[i] == rows[i];
      }
    }
  }

  lemma ShownSnoc(hits: seq<Hit>, cursor: nat, limit: nat, before: Page, position: nat, used: nat)
    requires Searching(hits, cursor, limit, before, position) && AllFound(hits)
    requires cursor <= position < |hits| && |before.rows| < limit
    requires 0 < used <= |HitRow(hits[position]).text|
    requires JsonSize(With(before, ShownRow(hits[position], used))) <= PAYLOAD_BUDGET + 1
    ensures Searching(hits, cursor, limit, With(before, ShownRow(hits[position], used)), position + 1)
  {
    ShownRowShows(hits[position], used);
    AllShownSnoc(hits, cursor, before.rows, ShownRow(hits[position], used));
  }

  /** Whether a hit was taken shows in the number of rows. */
  lemma TookSome(before: Page, hit: Hit, after: Page, used: int)
    requires before.SearchPage? && hit.column < |hit.text| && Took(before, HitRow(hit), after, used)
    ensures |after.rows| == |before.rows| <==> used < 0
    ensures used < 0 ==> !Fits(With(before, Cut(HitRow(hit), 1)))
    ensures used >= 0 ==> 0 < used <= |HitRow(hit).text|
  {
  }

  /** No room for one character: the page is not empty, */
  lemma NoRoomNonempty(before: Page, hit: Hit)
    requires before == Open(before.rows) && SmallHit(hit) && !Fits(With(before, Cut(HitRow(hit), 1)))
    ensures before.rows != []
  {
    if before.rows == [] {
      FirstMatchFits(hit);
    }
  }

  /** and it is full. */
  lemma NoRoomFull(hits: seq<Hit>, cursor: nat, limit: nat, rows: seq<Row>)
    requires AllFound(hits) && AllShown(hits, cursor, rows) && cursor + |rows| < |hits|
    requires !Fits(With(Open(rows), Cut(HitRow(hits[cursor + |rows|]), 1)))
    ensures Full(hits, cursor, limit, rows)
  {
  }

  lemma SearchingOpen(hits: seq<Hit>, cursor: nat, limit: nat, before: Page, position: nat)
    requires Searching(hits, cursor, limit, before, position) && cursor <= position
    ensures before == Open(before.rows) && position == cursor + |before.rows| && AllShown(hits, cursor, before.rows)
  {
  }

  lemma NoRoomIsFull(hits: seq<Hit>, cursor: nat, limit: nat, before: Page, position: nat)
    requires AllFound(hits) && before == Open(before.rows) && position == cursor + |before.rows| < |hits|
    requires AllShown(hits, cursor, before.rows) && !Fits(With(before, Cut(HitRow(hits[position]), 1)))
    ensures Full(hits, cursor, limit, before.rows)
  {
    NoRoomFull(hits, cursor, limit, before.rows);
  }

  /** `_append_text` took nothing of the hit, so the page ends before it. */
  lemma NoRoom(hits: seq<Hit>, cursor: nat, limit: nat, before: Page, position: nat, hit: Hit)
    requires Searching(hits, cursor, limit, before, position) && AllFound(hits) && |hits| <= MAX_TOTAL
    requires cursor <= position < |hits| && hit == hits[position] && !Fits(With(before, Cut(HitRow(hit), 1)))
    ensures SearchPageOk(hits, cursor, limit, SearchPage(before.rows, Some(position), true))
  {
    SearchingOpen(hits, cursor, limit, before, position);
    NoRoomNonempty(before, hit);
    NoRoomIsFull(hits, cursor, limit, before, position);
    ClosePage(hits, cursor, limit, before, position);
  }

  /** `_append_text` took `used` characters of the hit. */
  lemma RoomFor(hits: seq<Hit>, cursor: nat, limit: nat, before: Page, position: nat, after: Page, used: nat)
    requires Searching(hits, cursor, limit, before, position) && AllFound(hits) && |hits| <= MAX_TOTAL
    requires cursor <= position < |hits| && |before.rows| < limit && 0 < used <= |HitRow(hits[position]).text|
    requires Took(before, HitRow(hits[position]), after, used)
    ensures after.SearchPage? && |after.rows| == |before.rows| + 1
    ensures after.rows[|before.rows|].MatchRow?
    ensures var row := ShownRow(hits[position], used);
            var page := Open(before.rows + [Flag(after.rows[|before.rows|], row.truncated)]);
            && Searching(hits, cursor, limit, page, position + 1)
            && (used < |HitRow(hits[position]).text| ==>
                  SearchPageOk(hits, cursor, limit, SearchPage(page.rows, Some(position + 1), true)))
  {
    var hit := hits[position];
    AppendedRow(before, hit, after, used);
    ShownSnoc(hits, cursor, limit, before, position, used);
    var page := With(before, ShownRow(hit, used));
    if used < |HitRow(hit).text| {
      ShownCutShort(before, hit, used);
      LastRow(before.rows, ShownRow(hit, used));
      ClosePage(hits, cursor, limit, page, position + 1);
    }
  }

  lemma CutShortAt(before: Page, hit: Hit, used: nat, row: Row)
    requires before == Open(before.rows) && hit.column < |hit.text| && Shows(row, hit) && |row.text| == used
    requires used < |HitRow(hit).text| && !Fits(With(before, Cut(HitRow(hit), used + 1)))
    ensures CutShort(hit, before.rows, row)
  {
  }

  lemma ShownCutShort(before: Page, hit: Hit, used: nat)
    requires before == Open(before.rows) && hit.column < |hit.text|
    requires 0 < used < |HitRow(hit).text| && !Fits(With(before, Cut(HitRow(hit), used + 1)))
    ensures Shows(ShownRow(hit, used), hit) && CutShort(hit, before.rows, ShownRow(hit, used))
  {
    ShownRowShows(hit, used);
    CutShortAt(before, hit, used, ShownRow(hit, used));
  }

  lemma LastRow(rows: seq<Row>, row: Row)
    ensures (rows + [row])[..|rows + [row]| - 1] == rows && (rows + [row])[|rows + [row]| - 1] == row
  {
  }

  datatype Progress = Next | Done

  /** The body of the inner loop for a line that matches. */
  method TakeHit(ghost hits: seq<Hit>, hit: Hit, cursor: nat, limit: nat, before: Page, position: nat)
    returns (progress: Progress, page: Page, next: nat)
    requires Searching(hits, cursor, limit, before, position) && AllFound(hits) && |hits| <= MAX_TOTAL
    requires position < |hits| && hit == hits[position] && 1 <= limit
    ensures progress == Next ==> Searching(hits, cursor, limit, page, next) && next == position + 1
    ensures progress == Done ==> SearchPageOk(hits, cursor, limit, page)
  {
    if position < cursor {
      return Next, before, position + 1;
    }
    if |before.rows| == limit {
      ClosePage(hits, cursor, limit, before, position);
      return Done, SearchPage(before.rows, Some(position), true), position;
    }
    progress, page, next := OfferHit(hits, hit, cursor, limit, before, position);
  }

  /** A hit the page still has a row for. */
  method OfferHit(ghost hits: seq<Hit>, hit: Hit, ghost cursor: nat, ghost limit: nat, before: Page, position: nat)
    returns (progress: Progress, page: Page, next: nat)
    requires Searching(hits, cursor, limit, before, position) && AllFound(hits) && |hits| <= MAX_TOTAL
    requires cursor <= position < |hits| && hit == hits[position] && |before.rows| < limit
    ensures progress == Next ==> Searching(hits, cursor, limit, page, next) && next == position + 1
    ensures progress == Done ==> SearchPageOk(hits, cursor, limit, page)
  {
    var row := HitRow(hit);
    var used: int;
    page, used := TakeText(before, row);
    TookSome(before, hit, page, used);
    if |page.rows| == |before.rows| {
      NoRoom(hits, cursor, limit, before, position, hit);
      return Done, SearchPage(before.rows, Some(position), true), position;
    }
    RoomFor(hits, cursor, limit, before, position, page, used);
    var flag := row.startColumn > 0 || used < |row.text|;
    page := SearchPage(before.rows + [Flag(page.rows[|before.rows|], flag)], None, false);
    if used < |row.text| {
      return Done, SearchPage(page.rows, Some(position + 1), true), position + 1;
    }
    return Next, page, position + 1;
  }

  // ---------------------------------------------------------------- search over files

  function TextSize(files: seq<File>): nat {
    if files == [] then 0 else |files[0].text| + TextSize(files[1..])
  }

  /** What the manifest guarantees of the files a call may see. */
  predicate FilesOk(files: seq<File>) {
    && (forall i :: 0 <= i < |files| ==> Utf8Length(files[i].name) <= MAX_NAME && |files[i].text| <= MAX_FILE)
    && TextSize(files) <= MAX_TOTAL
  }

  predicate QueryOk(query: string) {
    0 < Utf8Length(query) <= MAX_NAME && '\r' !in query && '\n' !in query && '\0' !in query
  }

  lemma {:induction false} LineHitsFound(name: string, lines: seq<string>, i: nat, query: string)
    requires i <= |lines| && query != "" && Utf8Length(name) <= MAX_NAME && |lines| <= MAX_FILE
    requires forall k :: 0 <= k < |lines| ==> |lines[k]| <= MAX_FILE
    ensures AllFound(LineHits(name, lines, i, query)) && |LineHits(name, lines, i, query)| <= |lines| - i
    decreases |lines| - i
  {
    if i < |lines| {
      LineHitsFound(name, lines, i + 1, query);
    }
  }

  lemma {:induction false} HitsFound(files: seq<File>, query: string)
    requires query != "" && FilesOk(files)
    ensures AllFound(Hits(files, query)) && |Hits(files, query)| <= TextSize(files)
  {
    if files != [] {
      var rest := files[1..];
      assert forall i :: 0 <= i < |rest| ==> rest[i] == files[i + 1];
      HitsFound(rest, query);
      LinesBounds(files[0].text);
      LineHitsFound(files[0].name, Lines(files[0].text), 0, query);
    }
  }

  lemma NextLine(name: string, lines: seq<string>, number: nat, query: string, rest: seq<Hit>, left: seq<Hit>)
    requires number < |lines| && query != "" && left == LineHits(name, lines, number, query) + rest
    ensures var column := Find(lines[number], query, 0);
            if column < 0 then left == LineHits(name, lines, number + 1, query) + rest
            else left != [] && left[0] == Hit(name, number + 1, column, lines[number])
                 && left[1..] == LineHits(name, lines, number + 1, query) + rest
  {
    var column := Find(lines[number], query, 0);
    if column >= 0 {
      var hit := Hit(name, number + 1, column, lines[number]);
      assert left == [hit] + (LineHits(name, lines, number + 1, query) + rest);
    }
  }

  method SearchFile(ghost hits: seq<Hit>, ghost rest: seq<Hit>, file: File, query: string,
                    cursor: nat, limit: nat, before: Page, start: nat)
    returns (progress: Progress, page: Page, position: nat)
    requires query != "" && 1 <= limit && AllFound(hits) && |hits| <= MAX_TOTAL
    requires Searching(hits, cursor, limit, before, start)
    requires hits[start..] == LineHits(file.name, Lines(file.text), 0, query) + rest
    ensures progress == Next ==>
              Searching(hits, cursor, limit, page, position) && hits[position..] == rest
    ensures progress == Done ==> SearchPageOk(hits, cursor, limit, page)
  {
    var lines := SplitLines(file.text);
    page, position := before, start;
    var number := 0;
    while number < |lines|
      invariant number <= |lines|
      invariant Searching(hits, cursor, limit, page, position)
      invariant hits[position..] == LineHits(file.name, lines, number, query) + rest
    {
      var column := Find(lines[number], query, 0);
      NextLine(file.name, lines, number, query, rest, hits[position..]);
      if column >= 0 {
        var hit := Hit(file.name, number + 1, column, lines[number]);
        progress, page, position := TakeHit(hits, hit, cursor, limit, page, position);
        if progress == Done {
          return;
        }
      }
      number := number + 1;
    }
    progress := Next;
  }

  method Search(files: seq<File>, query: string, cursor: int, limit: int) returns (r: Result<Page>)
    requires FilesOk(files)
    ensures r.Ok? <==> QueryOk(query) && 0 <= cursor <= MAX_TOTAL && 1 <= limit <= 100
                       && query != "" && cursor <= |Hits(files, query)|
    ensures r.Ok? ==> SearchPageOk(Hits(files, query), cursor, limit, r.value)
    ensures r.Err? ==> r.error == InvalidRequest
  {
    if !QueryOk(query) || !(0 <= cursor <= MAX_TOTAL) || !(1 <= limit <= 100) {
      return Err(InvalidRequest);
    }
    assert query != "";
    HitsFound(files, query);
    ghost var hits := Hits(files, query);
    var page, position: nat := SearchPage([], None, false), 0;
    var f := 0;
    while f < |files|
      invariant f <= |files|
      invariant Searching(hits, cursor, limit, page, position)
      invariant hits[position..] == Hits(files[f..], query)
    {
      assert files[f..][0] == files[f] && files[f..][1..] == files[f + 1..];
      var progress: Progress;
      progress, page, position :=
        SearchFile(hits, Hits(files[f + 1..], query), files[f], query, cursor, limit, page, position);
      if progress == Done {
        return Ok(page);
      }
      f := f + 1;
    }
    assert position == |hits|;
    if cursor > position {
      return Err(InvalidRequest);
    }
    return Ok(page);
  }

  /** A search conversation: each page read at the cursor the one before returned. */
  predicate SearchChain(hits: seq<Hit>, cursor: nat, pages: seq<Page>)
    decreases |pages|
  {
    pages != [] ==>
      && SearchDelivers(hits, cursor, pages[0])
      && (|pages| > 1 ==> pages[0].truncated)
      && SearchChain(hits, cursor + |pages[0].rows|, pages[1..])
  }

  function RowsOf(pages: seq<Page>): seq<Row> {
    if pages == [] then [] else pages[0].rows + RowsOf(pages[1..])
  }

  lemma AllShownConcat(hits: seq<Hit>, cursor: nat, a: seq<Row>, b: seq<Row>)
    requires AllShown(hits, cursor, a) && AllShown(hits, cursor + |a|, b)
    ensures AllShown(hits, cursor, a + b)
  {
    var all := a + b;
    forall i | 0 <= i < |all| ensures Shows(all[i], hits[cursor + i]) {
      if i < |a| {
        assert all[i] == a[i];
      } else {
        assert all[i] == b[i - |a|] && hits[cursor + i] == hits[cursor + |a| + (i - |a|)];
      }
    }
  }

  /** Following search cursors yields every matching line once and in order: at any point the
      rows received show exactly the hits passed so far, and all of them once no cursor is
      returned; and a conversation has at most one page per hit, and a last one. */
  lemma {:induction false} SearchCoversHits(hits: seq<Hit>, cursor: nat, pages: seq<Page>)
    requires SearchChain(hits, cursor, pages) && cursor <= |hits|
    ensures AllShown(hits, cursor, RowsOf(pages))
    ensures pages != [] && !pages[|pages| - 1].truncated ==> cursor + |RowsOf(pages)| == |hits|
    ensures |pages| <= |hits| - cursor + 1
    decreases |pages|
  {
    if pages != [] {
      var next := cursor + |pages[0].rows|;
      SearchCoversHits(hits, next, pages[1..]);
      AllShownConcat(hits, cursor, pages[0].rows, RowsOf(pages[1..]));
      if |pages| > 1 {
        assert pages[1..][|pages| - 2] == pages[|pages| - 1];
      }
    }
  }

  // ---------------------------------------------------------------- list

  datatype Entry = Entry(name: string, size: nat, sha256: string)

  function EntryRow(e: Entry): Row {
    FileRow(e.name, e.size, e.sha256)
  }

  predicate EntriesOk(entries: seq<Entry>) {
    && |entries| <= MAX_FILES
    && forall i :: 0 <= i < |entries| ==>
         Utf8Length(entries[i].name) <= MAX_NAME && entries[i].size <= MAX_FILE && Utf8Length(entries[i].sha256) == 64
  }

  predicate Listed(entries: seq<Entry>, offset: nat, rows: seq<Row>) {
    offset + |rows| <= |entries| && forall i :: 0 <= i < |rows| ==> rows[i] == EntryRow(entries[offset + i])
  }

  /** The page lists entries from `offset` on, returns the offset after them, and makes progress. */
  predicate ListDelivers(entries: seq<Entry>, offset: nat, page: Page) {
    && page.ListPage?
    && Listed(entries, offset, page.rows)
    && page.truncated == page.nextOffset.Some?
    && (page.nextOffset.None? ==> offset + |page.rows| == |entries|)
    && (page.nextOffset.Some? ==> page.nextOffset.value == offset + |page.rows| < |entries| && page.rows != [])
  }

  ghost predicate ListFull(entries: seq<Entry>, offset: nat, limit: nat, rows: seq<Row>) {
    || offset + |rows| >= |entries|
    || |rows| == limit
    || !Fits(With(ListPage(rows, |entries|, None, false), EntryRow(entries[offset + |rows|])))
  }

  ghost predicate ListPageOk(entries: seq<Entry>, offset: nat, limit: nat, page: Page) {
    && ListDelivers(entries, offset, page)
    && page.total == |entries| && |page.rows| <= limit
    && ListFull(entries, offset, limit, page.rows)
    && JsonSize(page) <= MAX_OUTPUT
  }

  predicate Listing(entries: seq<Entry>, offset: nat, page: Page) {
    page == ListPage(page.rows, |entries|, None, false) && Fits(page) && Listed(entries, offset, page.rows)
  }

  lemma ListClosed(entries: seq<Entry>, offset: nat, limit: nat, page: Page)
    requires EntriesOk(entries) && Listing(entries, offset, page) && |page.rows| <= limit && limit > 0
    requires ListFull(entries, offset, limit, page.rows)
    ensures var next := offset + |page.rows|;
            ListPageOk(entries, offset, limit,
                       if next < |entries| then ListPage(page.rows, |entries|, Some(next), true) else page)
  {
    var next := offset + |page.rows|;
    if next < |entries| {
      ListSizes(entries, offset);
      DigitCountBound(next, 5);
    }
  }

  lemma ListSizes(entries: seq<Entry>, i: nat)
    requires EntriesOk(entries)
    ensures DigitCount(|entries|) <= 5 && Power10(5) == 100_000
    ensures Fits(ListPage([], |entries|, None, false))
    ensures i < |entries| ==> Fits(With(ListPage([], |entries|, None, false), EntryRow(entries[i])))
  {
    Powers();
    DigitCountBound(|entries|, 5);
    if i < |entries| {
      var e := entries[i];
      EscapeBound(e.name);
      EscapeBound(e.sha256);
      SmallDigits(e.size);
      RowCost(ListPage([], |entries|, None, false), EntryRow(e));
    }
  }

  /** One more entry that fits. */
  lemma ListedSnoc(entries: seq<Entry>, offset: nat, page: Page, longer: Page)
    requires Listing(entries, offset, page) && offset + |page.rows| < |entries|
    requires longer == With(page, EntryRow(entries[offset + |page.rows|])) && Fits(longer)
    ensures Listing(entries, offset, longer) && |longer.rows| == |page.rows| + 1
  {
    assert longer.rows == page.rows + [EntryRow(entries[offset + |page.rows|])];
  }

  /** The loop of `_list`: entries are added until the page is full. */
  method ListRows(entries: seq<Entry>, offset: nat, limit: nat) returns (page: Page)
    requires EntriesOk(entries) && offset <= |entries| && limit > 0
    ensures Listing(entries, offset, page) && |page.rows| <= limit
    ensures ListFull(entries, offset, limit, page.rows)
  {
    page := ListPage([], |entries|, None, false);
    ListSizes(entries, offset);
    var end := if offset + limit <= |entries| then offset + limit else |entries|;
    while offset + |page.rows| < end
      invariant Listing(entries, offset, page) && offset + |page.rows| <= end
      decreases end - |page.rows|
    {
      var longer := With(page, EntryRow(entries[offset + |page.rows|]));
      if JsonSize(longer) > PAYLOAD_BUDGET {
        return;
      }
      ListedSnoc(entries, offset, page, longer);
      page := longer;
    }
  }

  method List(entries: seq<Entry>, offset: int, limit: int) returns (r: Result<Page>)
    requires EntriesOk(entries)
    ensures r.Ok? <==> 0 <= offset <= |entries| && 1 <= limit <= 200
    ensures r.Ok? ==> ListPageOk(entries, offset, limit, r.value)
    ensures r.Err? ==> r.error == InvalidRequest
  {
    if !(0 <= offset <= |entries|) || !(1 <= limit <= 200) {
      return Err(InvalidRequest);
    }
    var page := ListRows(entries, offset, limit);
    ListClosed(entries, offset, limit, page);
    var next := offset + |page.rows|;
    if next < |entries| {
      page := ListPage(page.rows, page.total, Some(next), true);
    }
    return Ok(page);
  }

  predicate ListChain(entries: seq<Entry>, offset: nat, pages: seq<Page>)
    decreases |pages|
  {
    pages != [] ==>
      && ListDelivers(entries, offset, pages[0])
      && (|pages| > 1 ==> pages[0].truncated)
      && ListChain(entries, offset + |pages[0].rows|, pages[1..])
  }

  /** Following list offsets yields every name once and in order, in finitely many pages. */
  lemma {:induction false} ListCoversNames(entries: seq<Entry>, offset: nat, pages: seq<Page>)
    requires ListChain(entries, offset, pages) && offset <= |entries|
    ensures Listed(entries, offset, RowsOf(pages))
    ensures pages != [] && !pages[|pages| - 1].truncated ==> offset + |RowsOf(pages)| == |entries|
    ensures |pages| <= |entries| - offset + 1
    decreases |pages|
  {
    if pages != [] {
      ListCoversNames(entries, offset + |pages[0].rows|, pages[1..]);
      var all, first := RowsOf(pages), pages[0].rows;
      forall i | 0 <= i < |all| ensures all[i] == EntryRow(entries[offset + i]) {
        if i >= |first| {
          assert all[i] == RowsOf(pages[1..])[i - |first|];
          assert entries[offset + i] == entries[offset + |first| + (i - |first|)];
        }
      }
      if |pages| > 1 {
        assert pages[1..][|pages| - 2] == pages[|pages| - 1];
      }
    }
  }

  // ---------------------------------------------------------------- which hits there are

  /** Line `k` holds the query, and `hit` is its first place there. */
  predicate FirstOn(name: string, lines: seq<string>, k: nat, query: string, hit: Hit)
    requires k < |lines|
  {
    && hit.name == name && hit.line == k + 1 && hit.text == lines[k] && MatchAt(lines[k], query, hit.column)
    && forall c: nat :: c < hit.column ==> !MatchAt(lines[k], query, c)
  }

  lemma {:induction false} LineHitsExact(name: string, lines: seq<string>, i: nat, query: string, hit: Hit)
    requires i <= |lines| && query != "" && hit.column >= 0
    ensures hit in LineHits(name, lines, i, query) <==> exists k: nat :: i <= k < |lines| && FirstOn(name, lines, k, query, hit)
    decreases |lines| - i
  {
    if i < |lines| {
      LineHitsExact(name, lines, i + 1, query, hit);
      FirstHit(name, lines, i, query, hit);
    }
  }

  lemma FirstHit(name: string, lines: seq<string>, i: nat, query: string, hit: Hit)
    requires i < |lines| && query != ""
    ensures var column := Find(lines[i], query, 0);
            FirstOn(name, lines, i, query, hit) <==> column >= 0 && hit == Hit(name, i + 1, column, lines[i])
  {
    var column := Find(lines[i], query, 0);
    if FirstOn(name, lines, i, query, hit) {
      assert MatchAt(lines[i], query, hit.column);
      assert column >= 0 && !(hit.column < column);
    }
  }

  predicate OnSomeLine(file: File, query: string, hit: Hit) {
    exists k: nat :: k < |Lines(file.text)| && FirstOn(file.name, Lines(file.text), k, query, hit)
  }

  /** The hits of a search are exactly the first places of the query in the lines that hold it, of all files. */
  lemma {:induction false} HitsExact(files: seq<File>, query: string, hit: Hit)
    requires query != ""
    ensures hit in Hits(files, query) <==> exists f: nat :: f < |files| && OnSomeLine(files[f], query, hit)
  {
    if files != [] {
      var rest := files[1..];
      HitsExact(rest, query, hit);
      LineHitsExact(files[0].name, Lines(files[0].text), 0, query, hit);
      assert OnSomeLine(files[0], query, hit) <==> hit in LineHits(files[0].name, Lines(files[0].text), 0, query);
      assert forall f: nat :: f < |rest| ==> rest[f] == files[f + 1];
      if f: nat :| f < |files| && OnSomeLine(files[f], query, hit) {
        assert f > 0 ==> rest[f - 1] == files[f];
      }
    }
  }

  /** The excerpt holds the match, at most a hundred characters into it, and all of the line after it. */
  lemma ExcerptHolds(hit: Hit)
    requires hit.column <= |hit.text|
    ensures var row := HitRow(hit);
            && row.startColumn + |row.text| == |hit.text| && row.text == hit.text[row.startColumn..]
            && row.startColumn <= hit.column && hit.column - row.startColumn <= 100
            && (row.startColumn > 0 ==> hit.column - row.startColumn == 100)
  {
  }
}
