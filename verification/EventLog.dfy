/** The control store's event streams: one gapless sequence per Task, a retention floor below
    which payloads are deleted, and identity tombstones that outlive the payloads. */
module EventLog {
  import opened Wrappers

  datatype Event = Event(id: nat, task: nat, body: nat, sequence: nat)

  datatype Stream = Stream(sequence: nat, floor: nat)

  /** The stream, event and identity tables; event rows are keyed by (task, sequence). */
  datatype Log = Log(streams: map<nat, Stream>, rows: map<(nat, nat), Event>, ids: set<nat>)

  const NO_EVENTS := Log(map[], map[], {})

  const MAX_PAGE: nat := 10000

  function StreamOf(log: Log, task: nat): Stream {
    if task in log.streams then log.streams[task] else Stream(0, 0)
  }

  function Append(log: Log, event: Event): (r: Result<(Log, Event)>) {
    var stream := StreamOf(log, event.task);
    if stream.sequence >= MAX_INT then Err(InvalidState)
    else
      var stamped := event.(sequence := stream.sequence + 1);
      if event.id in log.ids || (event.task, stamped.sequence) in log.rows then Err(IdempotencyConflict)
      else Ok((Log(log.streams[event.task := stream.(sequence := stamped.sequence)],
                   log.rows[(event.task, stamped.sequence) := stamped], log.ids + {event.id}), stamped))
  }

  /** `sequence>after ORDER BY sequence LIMIT limit`, looking no further than `latest`. */
  function Select(rows: map<(nat, nat), Event>, task: nat, after: nat, latest: nat, limit: nat): seq<Event>
    decreases latest - after
  {
    if after >= latest || limit == 0 then []
    else if (task, after + 1) in rows then
      [rows[(task, after + 1)]] + Select(rows, task, after + 1, latest, limit - 1)
    else Select(rows, task, after + 1, latest, limit)
  }

  function Events(log: Log, task: nat, after: int, limit: int): (r: Result<seq<Event>>) {
    if !(0 <= after <= MAX_INT) || !(1 <= limit <= MAX_PAGE) then Err(InvalidRequest)
    else
      var stream := StreamOf(log, task);
      if after < stream.floor then Err(CursorExpired)
      else if after > stream.sequence then Err(InvalidRequest)
      else Ok(Select(log.rows, task, after, stream.sequence, limit))
  }

  function Prune(log: Log, task: nat, through: int): (r: Result<Log>) {
    var stream := StreamOf(log, task);
    if !(0 <= through <= stream.sequence) then Err(InvalidRequest)
    else if through <= stream.floor then Ok(log)
    else Ok(log.(streams := log.streams[task := stream.(floor := through)],
                 rows := map key | key in log.rows && (key.0 != task || key.1 > through) :: log.rows[key]))
  }

  // ---------------------------------------------------------------- the full log

  /** Every event ever accepted for a Task, oldest first. Pruning does not touch it. */
  type History = map<nat, seq<Event>>

  function Past(full: History, task: nat): seq<Event> {
    if task in full then full[task] else []
  }

  predicate StreamRefines(log: Log, full: History, task: nat) {
    var stream := StreamOf(log, task);
    stream.floor <= stream.sequence && stream.sequence == |Past(full, task)| <= MAX_INT
  }

  /** A row is retained exactly when its position lies above the floor, and then it is the
      event recorded at that position. */
  predicate RowRefines(log: Log, full: History, task: nat, k: nat) {
    && ((task, k) in log.rows <==> StreamOf(log, task).floor < k <= |Past(full, task)|)
    && ((task, k) in log.rows ==> k >= 1 && k <= |Past(full, task)| && log.rows[(task, k)] == Past(full, task)[k - 1])
  }

  predicate Recorded(full: History, task: nat, k: nat, id: nat) {
    k < |Past(full, task)| && Past(full, task)[k].id == id
  }

  predicate Numbered(full: History, task: nat, k: nat) {
    k < |Past(full, task)| ==> Past(full, task)[k].task == task && Past(full, task)[k].sequence == k + 1
  }

  ghost predicate AllRecorded(log: Log, full: History) {
    forall task: nat, k: nat, id: nat :: Recorded(full, task, k, id) ==> id in log.ids
  }

  /** An identity names one position of one stream, for ever. */
  ghost predicate NeverReused(full: History) {
    forall t1: nat, k1: nat, t2: nat, k2: nat, id: nat ::
      Recorded(full, t1, k1, id) && Recorded(full, t2, k2, id) ==> t1 == t2 && k1 == k2
  }

  ghost predicate Refines(log: Log, full: History) {
    && (forall task: nat :: StreamRefines(log, full, task))
    && (forall task: nat, k: nat :: RowRefines(log, full, task, k))
    && (forall task: nat, k: nat :: Numbered(full, task, k))
    && AllRecorded(log, full)
    && NeverReused(full)
  }

  function Extend(full: History, event: Event): History {
    full[event.task := Past(full, event.task) + [event]]
  }

  /** With a live cursor a page is the next stretch of the full log: nothing skipped, nothing
      repeated, nothing reordered. */
  lemma {:induction false} SelectIsSlice(log: Log, full: History, task: nat, after: nat, limit: nat)
    requires forall k: nat :: RowRefines(log, full, task, k)
    requires StreamOf(log, task).floor <= after <= |Past(full, task)|
    ensures var latest := |Past(full, task)|;
            Select(log.rows, task, after, latest, limit)
            == Past(full, task)[after..if latest - after <= limit then latest else after + limit]
    decreases |Past(full, task)| - after
  {
    var past := Past(full, task);
    if after < |past| && limit > 0 {
      assert RowRefines(log, full, task, after + 1);
      SelectIsSlice(log, full, task, after + 1, limit - 1);
      var end := if |past| - after <= limit then |past| else after + limit;
      assert past[after..end] == [past[after]] + past[after + 1..end];
    }
  }

  /** What a read returns, exactly: expiry if and only if the cursor fell below the floor. */
  lemma EventsExact(log: Log, full: History, task: nat, after: int, limit: int)
    requires Refines(log, full) && 0 <= after <= MAX_INT && 1 <= limit <= MAX_PAGE
    ensures var past := Past(full, task);
            var r := Events(log, task, after, limit);
            && (r == Err(CursorExpired) <==> after < StreamOf(log, task).floor)
            && (StreamOf(log, task).floor <= after <= |past| ==>
                  r == Ok(past[after..if |past| - after <= limit then |past| else after + limit]))
            && (after > |past| ==> r == Err(InvalidRequest))
  {
    assert StreamRefines(log, full, task);
    if StreamOf(log, task).floor <= after <= |Past(full, task)| {
      SelectIsSlice(log, full, task, after, limit);
    }
  }

  lemma AppendKeepsStreams(log: Log, full: History, event: Event)
    requires Refines(log, full) && Append(log, event).Ok?
    ensures var (next, stamped) := Append(log, event).value;
            forall task: nat :: StreamRefines(next, Extend(full, stamped), task)
  {
    var (next, stamped) := Append(log, event).value;
    forall task: nat ensures StreamRefines(next, Extend(full, stamped), task) {
      assert StreamRefines(log, full, task);
    }
  }

  lemma AppendKeepsRows(log: Log, full: History, event: Event)
    requires Refines(log, full) && Append(log, event).Ok?
    ensures var (next, stamped) := Append(log, event).value;
            forall task: nat, k: nat :: RowRefines(next, Extend(full, stamped), task, k)
  {
    var (next, stamped) := Append(log, event).value;
    forall task: nat, k: nat ensures RowRefines(next, Extend(full, stamped), task, k) {
      assert RowRefines(log, full, task, k);
      assert StreamRefines(log, full, task);
    }
  }

  lemma ExtendRecords(full: History, event: Event, task: nat, k: nat, id: nat)
    ensures Recorded(Extend(full, event), task, k, id) <==>
              Recorded(full, task, k, id)
              || (task == event.task && k == |Past(full, event.task)| && id == event.id)
  {
  }

  lemma AppendKeepsIds(log: Log, full: History, event: Event)
    requires Refines(log, full) && Append(log, event).Ok?
    ensures var (next, stamped) := Append(log, event).value;
            AllRecorded(next, Extend(full, stamped)) && NeverReused(Extend(full, stamped))
  {
    var (next, stamped) := Append(log, event).value;
    var after := Extend(full, stamped);
    forall task: nat, k: nat, id: nat | Recorded(after, task, k, id) ensures id in next.ids {
      ExtendRecords(full, stamped, task, k, id);
    }
    forall t1: nat, k1: nat, t2: nat, k2: nat, id: nat | Recorded(after, t1, k1, id) && Recorded(after, t2, k2, id)
      ensures t1 == t2 && k1 == k2
    {
      ExtendRecords(full, stamped, t1, k1, id);
      ExtendRecords(full, stamped, t2, k2, id);
    }
  }

  lemma AppendKeepsNumbers(log: Log, full: History, event: Event)
    requires Refines(log, full) && Append(log, event).Ok?
    ensures forall task: nat, k: nat :: Numbered(Extend(full, Append(log, event).value.1), task, k)
  {
    var (next, stamped) := Append(log, event).value;
    forall task: nat, k: nat ensures Numbered(Extend(full, stamped), task, k) {
      assert Numbered(full, task, k);
      assert StreamRefines(log, full, task);
    }
  }

  lemma AppendKeeps(log: Log, full: History, event: Event)
    requires Refines(log, full) && Append(log, event).Ok?
    ensures Refines(Append(log, event).value.0, Extend(full, Append(log, event).value.1))
  {
    AppendKeepsStreams(log, full, event);
    AppendKeepsRows(log, full, event);
    AppendKeepsIds(log, full, event);
    AppendKeepsNumbers(log, full, event);
  }

  /** In a reachable log an append is refused only at the integer ceiling or for a used identity;
      the (task, sequence) key is always free. */
  lemma AppendRefusedExactly(log: Log, full: History, event: Event)
    requires Refines(log, full)
    ensures Append(log, event).Err? <==> |Past(full, event.task)| == MAX_INT || event.id in log.ids
  {
    assert StreamRefines(log, full, event.task);
    assert RowRefines(log, full, event.task, |Past(full, event.task)| + 1);
  }

  /** A deletion keeps the full log; it only raises the floor. */
  lemma PruneKeeps(log: Log, full: History, task: nat, through: int)
    requires Refines(log, full) && Prune(log, task, through).Ok?
    ensures Refines(Prune(log, task, through).value, full)
    ensures StreamOf(Prune(log, task, through).value, task).floor
            == if through > StreamOf(log, task).floor then through else StreamOf(log, task).floor
  {
    var next := Prune(log, task, through).value;
    forall t: nat ensures StreamRefines(next, full, t) {
      assert StreamRefines(log, full, t);
    }
    forall t: nat, k: nat ensures RowRefines(next, full, t, k) {
      assert RowRefines(log, full, t, k);
      assert StreamRefines(log, full, t);
    }
  }

  // ---------------------------------------------------------------- a reader among writers

  /** A client following one stream: what it holds, and where it will continue. */
  datatype Reader = Reader(task: nat, start: nat, cursor: nat, held: seq<Event>, expired: bool)

  datatype World = World(log: Log, full: History, reader: Reader)

  datatype Step = DoAppend(event: Event) | DoPrune(task: nat, through: int) | DoRead(limit: int)

  function AfterRead(reader: Reader, answer: Result<seq<Event>>): Reader {
    match answer
    case Err(CursorExpired) => reader.(expired := true)
    case Err(_) => reader
    case Ok(page) =>
      if page == [] then reader
      else reader.(cursor := page[|page| - 1].sequence, held := reader.held + page)
  }

  /** The reader passes the sequence number of the last event it was given as its next cursor. */
  function Next(w: World, step: Step): World {
    match step
    case DoAppend(event) =>
      (var r := Append(w.log, event);
       if r.Ok? then w.(log := r.value.0, full := Extend(w.full, r.value.1)) else w)
    case DoPrune(task, through) =>
      (var r := Prune(w.log, task, through);
       if r.Ok? then w.(log := r.value) else w)
    case DoRead(limit) =>
      if w.reader.expired then w
      else w.(reader := AfterRead(w.reader, Events(w.log, w.reader.task, w.reader.cursor, limit)))
  }

  function Run(w: World, steps: seq<Step>): World
    decreases |steps|
  {
    if steps == [] then w else Run(Next(w, steps[0]), steps[1..])
  }

  /** The reader holds the stretch of the full log between its start and its cursor. */
  predicate Contiguous(full: History, reader: Reader) {
    && reader.start <= reader.cursor <= |Past(full, reader.task)|
    && reader.held == Past(full, reader.task)[reader.start..reader.cursor]
  }

  ghost predicate WorldOk(w: World) {
    Refines(w.log, w.full) && Contiguous(w.full, w.reader)
  }

  /** A page cut from the log right behind the cursor extends the held stretch. */
  lemma StretchGrows(past: seq<Event>, start: nat, cursor: nat, end: nat)
    requires start <= cursor < end <= |past|
    ensures past[start..end] == past[start..cursor] + past[cursor..end]
    ensures past[cursor..end] != [] && past[cursor..end][end - cursor - 1] == past[end - 1]
  {
  }

  lemma ReadKeeps(w: World, limit: int)
    requires WorldOk(w) && !w.reader.expired
    ensures WorldOk(Next(w, DoRead(limit)))
  {
    if 1 <= limit <= MAX_PAGE && StreamOf(w.log, w.reader.task).floor <= w.reader.cursor {
      ReadMoves(w, limit);
    } else if 1 <= limit <= MAX_PAGE {
      CursorSmall(w);
      EventsExact(w.log, w.full, w.reader.task, w.reader.cursor, limit);
    }
  }

  lemma CursorSmall(w: World)
    requires WorldOk(w)
    ensures w.reader.cursor <= MAX_INT
  {
    assert StreamRefines(w.log, w.full, w.reader.task);
  }

  lemma ReadMoves(w: World, limit: int)
    requires WorldOk(w) && !w.reader.expired && 1 <= limit <= MAX_PAGE
    requires StreamOf(w.log, w.reader.task).floor <= w.reader.cursor
    ensures WorldOk(Next(w, DoRead(limit)))
  {
    CursorSmall(w);
    EventsExact(w.log, w.full, w.reader.task, w.reader.cursor, limit);
    var past := Past(w.full, w.reader.task);
    var end := if |past| - w.reader.cursor <= limit then |past| else w.reader.cursor + limit;
    if w.reader.cursor < end {
      StretchGrows(past, w.reader.start, w.reader.cursor, end);
      assert Numbered(w.full, w.reader.task, end - 1);
    }
  }

  lemma AppendKeepsReader(w: World, event: Event)
    requires WorldOk(w) && Append(w.log, event).Ok?
    ensures Contiguous(Extend(w.full, Append(w.log, event).value.1), w.reader)
  {
    var past := Past(w.full, w.reader.task);
    var stamped := Append(w.log, event).value.1;
    assert (past + [stamped])[w.reader.start..w.reader.cursor] == past[w.reader.start..w.reader.cursor];
  }

  lemma NextKeeps(w: World, step: Step)
    requires WorldOk(w)
    ensures WorldOk(Next(w, step))
  {
    match step
    case DoAppend(event) =>
      if Append(w.log, event).Ok? {
        AppendKeeps(w.log, w.full, event);
        AppendKeepsReader(w, event);
      }
    case DoPrune(task, through) =>
      if Prune(w.log, task, through).Ok? {
        PruneKeeps(w.log, w.full, task, through);
      }
    case DoRead(limit) =>
      if !w.reader.expired {
        ReadKeeps(w, limit);
      }
  }

  /** However appends, prunes and reads interleave, the reader holds one unbroken section of
      everything ever appended, and no identity is ever given out twice. */
  lemma {:induction false} ReaderNeverSkips(w: World, steps: seq<Step>)
    requires WorldOk(w)
    ensures WorldOk(Run(w, steps))
    decreases |steps|
  {
    if steps != [] {
      NextKeeps(w, steps[0]);
      ReaderNeverSkips(Next(w, steps[0]), steps[1..]);
    }
  }

  /** A reader is told of expiry exactly when a prune has passed its cursor; otherwise a read
      moves it forward by as much as the page allows. */
  lemma ReadOutcome(w: World, limit: int)
    requires WorldOk(w) && !w.reader.expired && 1 <= limit <= MAX_PAGE
    ensures var after := Next(w, DoRead(limit)).reader;
            var past := Past(w.full, w.reader.task);
            && (after.expired <==> w.reader.cursor < StreamOf(w.log, w.reader.task).floor)
            && (!after.expired ==>
                  after.cursor == if |past| - w.reader.cursor <= limit then |past| else w.reader.cursor + limit)
  {
    var past := Past(w.full, w.reader.task);
    assert StreamRefines(w.log, w.full, w.reader.task);
    EventsExact(w.log, w.full, w.reader.task, w.reader.cursor, limit);
    var end := if |past| - w.reader.cursor <= limit then |past| else w.reader.cursor + limit;
    if end > w.reader.cursor {
      assert Numbered(w.full, w.reader.task, end - 1);
    }
  }

  lemma EmptyWorldOk(task: nat)
    ensures WorldOk(EmptyWorld(task))
  {
    assert forall t: nat, k: nat, id: nat :: !Recorded(map[], t, k, id);
  }

  function EmptyWorld(task: nat): World {
    World(NO_EVENTS, map[], Reader(task, 0, 0, [], false))
  }

  /** A reader that follows a stream from its beginning holds, at every moment, exactly the first events
      ever appended to it, as many as its cursor says. */
  lemma ReaderHoldsPrefix(task: nat, steps: seq<Step>)
    ensures var w := Run(EmptyWorld(task), steps);
            && w.reader.task == task && w.reader.cursor <= |Past(w.full, task)|
            && w.reader.held == Past(w.full, task)[..w.reader.cursor]
  {
    EmptyWorldOk(task);
    ReaderNeverSkips(EmptyWorld(task), steps);
    ReaderStays(EmptyWorld(task), steps);
  }

  lemma {:induction false} ReaderStays(w: World, steps: seq<Step>)
    ensures Run(w, steps).reader.task == w.reader.task && Run(w, steps).reader.start == w.reader.start
    decreases |steps|
  {
    if steps != [] {
      ReaderStays(Next(w, steps[0]), steps[1..]);
    }
  }
}
