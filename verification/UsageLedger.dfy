/** Usage observations of a billing pool: counters are turned into consumption against the last
    baseline of the same key, and duplicates and late arrivals count for nothing. */
module UsageLedger {
  import opened Wrappers

  datatype ObsKey = ObsKey(pool: nat, meter: nat, scope: nat, scopeRef: nat, window: nat, source: nat)

  datatype Observation = Observation(key: ObsKey, cursor: nat, used: Option<nat>, cumulative: bool,
                                     sequence: Option<nat>, observedAt: int)

  datatype Derivation = Unknown | Reported | Baseline | OutOfOrder | CounterReset | Difference

  datatype Entry = Entry(observation: Observation, delta: Option<nat>, derivation: Derivation, advanced: bool)

  function Used(o: Observation): nat {
    match o.used case Some(n) => n case None => 0
  }

  predicate Stale(o: Observation, previous: Observation) {
    if o.sequence.Some? && previous.sequence.Some? then o.sequence.value <= previous.sequence.value
    else o.observedAt <= previous.observedAt
  }

  /** `_derive_observation`. */
  function Derive(o: Observation, previous: Option<Entry>): Entry {
    if o.used.None? then Entry(o, None, Unknown, false)
    else if !o.cumulative then Entry(o, o.used, Reported, false)
    else if previous.None? then Entry(o, None, Baseline, true)
    else
      var p := previous.value.observation;
      if Stale(o, p) then Entry(o, None, OutOfOrder, false)
      else if o.used.value < Used(p) then Entry(o, None, CounterReset, true)
      else Entry(o, Some(o.used.value - Used(p)), Difference, true)
  }

  /** The newest entry of the key that moved its baseline, searching backwards. */
  function LastBaseline(log: seq<Entry>, key: ObsKey): Option<Entry> {
    if log == [] then None
    else
      var last := log[|log| - 1];
      if last.observation.key == key && last.advanced then Some(last) else LastBaseline(log[..|log| - 1], key)
  }

  function AtCursor(log: seq<Entry>, key: ObsKey, cursor: nat): Option<Entry> {
    if log == [] then None
    else
      var front := AtCursor(log[..|log| - 1], key, cursor);
      var last := log[|log| - 1];
      if front.Some? then front
      else if last.observation.key == key && last.observation.cursor == cursor then Some(last) else None
  }

  function Record(log: seq<Entry>, o: Observation): (r: Result<(seq<Entry>, Entry)>) {
    match AtCursor(log, o.key, o.cursor)
    case Some(old_) => if old_.observation == o then Ok((log, old_)) else Err(IdempotencyConflict)
    case None =>
      var entry := Derive(o, LastBaseline(log, o.key));
      Ok((log + [entry], entry))
  }

  // ---------------------------------------------------------------- replay

  /** The validator's running map: the last baseline of every key seen so far. */
  function Baselines(log: seq<Entry>): map<ObsKey, Entry> {
    if log == [] then map[]
    else
      var last := log[|log| - 1];
      var front := Baselines(log[..|log| - 1]);
      if last.advanced then front[last.observation.key := last] else front
  }

  /** Searching backwards from the end and folding forwards from the start find the same baseline. */
  lemma {:induction false} FoldFindsBaseline(log: seq<Entry>, key: ObsKey)
    ensures LastBaseline(log, key) == if key in Baselines(log) then Some(Baselines(log)[key]) else None
  {
    if log != [] {
      FoldFindsBaseline(log[..|log| - 1], key);
    }
  }

  predicate SameSlot(a: Observation, b: Observation) {
    a.key == b.key && a.cursor == b.cursor
  }

  predicate Replays(log: seq<Entry>, i: nat)
    requires i < |log|
  {
    log[i] == Derive(log[i].observation, LastBaseline(log[..i], log[i].observation.key))
  }

  /** Every stored value is what an in-order replay of the observations derives, and no cursor
      of a key occurs twice. */
  predicate LogOk(log: seq<Entry>) {
    && (forall i :: 0 <= i < |log| ==> Replays(log, i))
    && (forall i, j :: 0 <= i < j < |log| ==> !SameSlot(log[i].observation, log[j].observation))
  }

  lemma {:induction false} NoneAtCursor(log: seq<Entry>, key: ObsKey, cursor: nat)
    ensures AtCursor(log, key, cursor).None? <==>
              forall i :: 0 <= i < |log| ==> log[i].observation.key != key || log[i].observation.cursor != cursor
  {
    if log != [] {
      NoneAtCursor(log[..|log| - 1], key, cursor);
    }
  }

  lemma RecordKeeps(log: seq<Entry>, o: Observation)
    requires LogOk(log) && Record(log, o).Ok?
    ensures LogOk(Record(log, o).value.0)
  {
    var next := Record(log, o).value.0;
    if AtCursor(log, o.key, o.cursor).None? {
      NoneAtCursor(log, o.key, o.cursor);
      assert next[..|log|] == log;
      forall i | 0 <= i < |next| ensures Replays(next, i) {
        if i < |log| {
          assert Replays(log, i);
          assert next[..i] == log[..i];
        }
      }
    }
  }

  lemma {:induction false} FoundAtCursor(log: seq<Entry>, entry: Entry)
    requires AtCursor(log, entry.observation.key, entry.observation.cursor).None?
    ensures AtCursor(log + [entry], entry.observation.key, entry.observation.cursor) == Some(entry)
  {
    assert (log + [entry])[..|log|] == log;
  }

  lemma {:induction false} AtCursorMatches(log: seq<Entry>, key: ObsKey, cursor: nat)
    requires AtCursor(log, key, cursor).Some?
    ensures var e := AtCursor(log, key, cursor).value; e.observation.key == key && e.observation.cursor == cursor
  {
    if AtCursor(log[..|log| - 1], key, cursor).Some? {
      AtCursorMatches(log[..|log| - 1], key, cursor);
    }
  }

  /** Reporting the same cursor again returns the stored value and changes nothing; with other
      evidence it is refused. */
  lemma DuplicateChangesNothing(log: seq<Entry>, o: Observation, again: Observation)
    requires Record(log, o).Ok? && SameSlot(o, again)
    ensures var (next, entry) := Record(log, o).value;
            Record(next, again) == if again == o then Ok((next, entry)) else Err(IdempotencyConflict)
  {
    if AtCursor(log, o.key, o.cursor).None? {
      FoundAtCursor(log, Derive(o, LastBaseline(log, o.key)));
    }
  }

  // ---------------------------------------------------------------- consumption over a whole log

  /** The total of a key's "difference" deltas. */
  function Consumed(log: seq<Entry>, key: ObsKey): nat {
    if log == [] then 0
    else
      var last := log[|log| - 1];
      Consumed(log[..|log| - 1], key)
      + if last.observation.key == key && last.derivation == Difference && last.delta.Some? then last.delta.value else 0
  }

  /** A baseline of the key: its counter, and whether it starts a segment (first or after a reset). */
  datatype Mark = Mark(used: nat, starts: bool)

  function Marks(log: seq<Entry>, key: ObsKey): seq<Mark> {
    if log == [] then []
    else
      var last := log[|log| - 1];
      Marks(log[..|log| - 1], key)
      + if last.observation.key == key && last.advanced
        then [Mark(Used(last.observation), last.derivation != Difference)] else []
  }

  /** Where the last segment starts. */
  function SegmentStart(marks: seq<Mark>): (at: nat)
    requires marks != []
    ensures at < |marks|
  {
    if |marks| == 1 || marks[|marks| - 1].starts then |marks| - 1 else SegmentStart(marks[..|marks| - 1])
  }

  /** Over all reset-delimited segments, the sum of last minus first counter. */
  function Spans(marks: seq<Mark>): int {
    if marks == [] then 0
    else
      var at := SegmentStart(marks);
      Spans(marks[..at]) + marks[|marks| - 1].used - marks[at].used
  }

  predicate LogReplays(log: seq<Entry>) {
    forall i :: 0 <= i < |log| ==> Replays(log, i)
  }

  lemma {:induction false} LastMark(log: seq<Entry>, key: ObsKey)
    ensures LastBaseline(log, key).None? <==> Marks(log, key) == []
    ensures LastBaseline(log, key).Some? ==>
              Marks(log, key)[|Marks(log, key)| - 1].used == Used(LastBaseline(log, key).value.observation)
  {
    if log != [] {
      LastMark(log[..|log| - 1], key);
    }
  }

  lemma SpansStep(marks: seq<Mark>, mark: Mark)
    requires marks != [] || mark.starts
    ensures Spans(marks + [mark])
            == Spans(marks) + if mark.starts then 0 else mark.used - marks[|marks| - 1].used
  {
    var all := marks + [mark];
    assert all[..|marks|] == marks;
    if mark.starts {
      assert SegmentStart(all) == |marks|;
    } else {
      var at := SegmentStart(marks);
      assert SegmentStart(all) == at;
      assert all[..at] == marks[..at];
    }
  }

  lemma PrefixReplays(log: seq<Entry>)
    requires log != [] && LogReplays(log)
    ensures LogReplays(log[..|log| - 1])
    ensures log[|log| - 1]
            == Derive(log[|log| - 1].observation, LastBaseline(log[..|log| - 1], log[|log| - 1].observation.key))
  {
    var front := log[..|log| - 1];
    assert Replays(log, |log| - 1);
    forall i | 0 <= i < |front| ensures Replays(front, i) {
      assert Replays(log, i);
      assert front[..i] == log[..i];
    }
  }

  /** The deltas telescope: what a key consumed is, segment by segment, the last counter minus the
      first, however many duplicates and late arrivals the log also holds. */
  lemma {:induction false} DeltasTelescope(log: seq<Entry>, key: ObsKey)
    requires LogReplays(log)
    ensures Consumed(log, key) == Spans(Marks(log, key))
  {
    if log != [] {
      var front, last := log[..|log| - 1], log[|log| - 1];
      PrefixReplays(log);
      DeltasTelescope(front, key);
      LastMark(front, key);
      if last.observation.key == key && last.advanced {
        SpansStep(Marks(front, key), Mark(Used(last.observation), last.derivation != Difference));
      } else {
        assert Marks(log, key) == Marks(front, key);
      }
    }
  }

  lemma LastSnoc(log: seq<Entry>, e: Entry, key: ObsKey)
    ensures LastBaseline(log + [e], key) == if e.observation.key == key && e.advanced then Some(e) else LastBaseline(log, key)
  {
    assert (log + [e])[..|log|] == log;
  }

  lemma RecordNew(log: seq<Entry>, o: Observation)
    requires AtCursor(log, o.key, o.cursor) == None
    ensures Record(log, o) == Ok((log + [Derive(o, LastBaseline(log, o.key))], Derive(o, LastBaseline(log, o.key))))
  {
  }

  /** Newer by sequence where both have one, else by time. */
  predicate Newer(o: Observation, p: Observation) {
    if o.sequence.Some? && p.sequence.Some? then o.sequence.value > p.sequence.value else o.observedAt > p.observedAt
  }

  /** The entry of a counter against its baseline `p`. */
  predicate Counts(entry: Entry, o: Observation, p: Observation)
    requires o.used.Some?
  {
    var base := match p.used case Some(n) => n case None => 0;
    && entry.observation == o && entry.advanced == Newer(o, p)
    && entry.delta == (if Newer(o, p) && o.used.value >= base then Some(o.used.value - base) else None)
    && (entry.derivation == CounterReset <==> Newer(o, p) && o.used.value < base)
    && (entry.derivation == OutOfOrder <==> !Newer(o, p))
  }

  lemma DeriveCounts(o: Observation, previous: Option<Entry>)
    requires o.used.Some? && o.cumulative && previous.Some?
    ensures Counts(Derive(o, previous), o, previous.value.observation)
  {
  }

  /** A counter counts exactly its growth since the last baseline, and only if it is newer. One that fell starts a
      new segment, one that is late moves nothing. */
  lemma DerivedExactly(log: seq<Entry>, o: Observation, p: Entry, next: seq<Entry>, entry: Entry)
    requires o.used.Some? && o.cumulative && AtCursor(log, o.key, o.cursor) == None
    requires LastBaseline(log, o.key) == Some(p) && Record(log, o) == Ok((next, entry))
    ensures next == log + [entry] && Counts(entry, o, p.observation)
    ensures LastBaseline(next, o.key) == Some(if Newer(o, p.observation) then entry else p)
  {
    RecordNew(log, o);
    DeriveCounts(o, Some(p));
    LastSnoc(log, entry, o.key);
  }

  /** A usage that is not cumulative counts as reported, an unknown one not at all, and neither moves a baseline. */
  lemma ReportedExactly(log: seq<Entry>, o: Observation, next: seq<Entry>, entry: Entry, key: ObsKey)
    requires (o.used.None? || !o.cumulative) && AtCursor(log, o.key, o.cursor) == None
    requires Record(log, o) == Ok((next, entry))
    ensures next == log + [entry] && entry.observation == o && entry.delta == o.used
    ensures LastBaseline(next, key) == LastBaseline(log, key)
  {
    RecordNew(log, o);
    LastSnoc(log, entry, key);
  }

  // ---------------------------------------------------------------- the store's loops

  method FindBaseline(log: seq<Entry>, key: ObsKey) returns (previous: Option<Entry>)
    ensures previous == LastBaseline(log, key)
  {
    var i := |log|;
    assert log[..i] == log;
    while i > 0
      invariant 0 <= i <= |log|
      invariant LastBaseline(log, key) == LastBaseline(log[..i], key)
    {
      assert log[..i][..i - 1] == log[..i - 1];
      i := i - 1;
      if log[i].observation.key == key && log[i].advanced {
        return Some(log[i]);
      }
    }
    return None;
  }

  method FindCursor(log: seq<Entry>, key: ObsKey, cursor: nat) returns (found: Option<Entry>)
    ensures found == AtCursor(log, key, cursor)
  {
    found := None;
    for i := 0 to |log|
      invariant found == AtCursor(log[..i], key, cursor)
    {
      assert log[..i + 1][..i] == log[..i];
      if found.None? && log[i].observation.key == key && log[i].observation.cursor == cursor {
        found := Some(log[i]);
      }
    }
    assert log[..|log|] == log;
  }

  lemma ReplaysAlike(log: seq<Entry>, i: nat)
    requires i < |log|
    ensures Replays(log, i) <==>
              log[i] == Derive(log[i].observation,
                               if log[i].observation.key in Baselines(log[..i])
                               then Some(Baselines(log[..i])[log[i].observation.key]) else None)
  {
    FoldFindsBaseline(log[..i], log[i].observation.key);
  }

  lemma LogOkStep(log: seq<Entry>, n: nat)
    requires n < |log| && LogOk(log[..n])
    ensures LogOk(log[..n + 1]) <==>
              Replays(log, n) && AtCursor(log[..n], log[n].observation.key, log[n].observation.cursor).None?
  {
    var before, after := log[..n], log[..n + 1];
    assert after[..n] == before;
    NoneAtCursor(before, log[n].observation.key, log[n].observation.cursor);
    assert Replays(after, n) <==> Replays(log, n);
    forall i | 0 <= i < n ensures Replays(after, i) {
      assert Replays(before, i);
      assert after[..i] == before[..i];
    }
    if LogOk(after) {
      forall i | 0 <= i < n ensures !SameSlot(before[i].observation, log[n].observation) {
        assert !SameSlot(after[i].observation, after[n].observation);
      }
    }
  }

  lemma LogOkPrefix(log: seq<Entry>, n: nat)
    requires n <= |log|
    ensures LogOk(log) ==>
              LogOk(log[..n])
  {
    if LogOk(log) {
      var before := log[..n];
      forall i | 0 <= i < n ensures Replays(before, i) {
        assert Replays(log, i);
        assert before[..i] == log[..i];
      }
    }
  }

  /** The snapshot check: one forward pass that re-derives every entry from the running baselines. */
  method ValidateLog(log: seq<Entry>) returns (ok: bool)
    ensures ok <==> LogOk(log)
  {
    var baselines: map<ObsKey, Entry> := map[];
    var cursors: set<(ObsKey, nat)> := {};
    for n := 0 to |log|
      invariant LogOk(log[..n]) && baselines == Baselines(log[..n])
      invariant forall key, cursor: nat :: (key, cursor) in cursors <==> AtCursor(log[..n], key, cursor).Some?
    {
      var entry := log[n];
      var key := entry.observation.key;
      LogOkStep(log, n);
      ReplaysAlike(log, n);
      assert log[..n + 1][..n] == log[..n];
      var previous := if key in baselines then Some(baselines[key]) else None;
      if (key, entry.observation.cursor) in cursors || entry != Derive(entry.observation, previous) {
        LogOkPrefix(log, n + 1);
        return false;
      }
      cursors := cursors + {(key, entry.observation.cursor)};
      if entry.advanced {
        baselines := baselines[key := entry];
      }
    }
    assert log[..|log|] == log;
    return true;
  }
}
