/** The tables of internal/state/pgstore.go. Each store method is one atomic table
    operation: a function on the value of the tables, and a class whose methods update
    the tables in place and are proved against those functions. */
module Store {
  import opened Canonical

  /** A row id of translation_state.datastream. */
  type StreamId = int

  /** The idempotency key UNIQUE (datastream_id, phenomenon_time). */
  datatype LogKey = LogKey(stream: StreamId, time: Time)

  datatype LogRow = LogRow(result: Reading, rawId: string, staObservationId: int, writtenAt: Time)

  datatype Row = Row(
    pollCursor: Option<Time>,
    lastPolledAt: Option<Time>,
    lastWrittenAt: Option<Time>,
    expectedCadence: int)

  datatype Tables = Tables(rows: map<StreamId, Row>, log: map<LogKey, LogRow>)

  const SECOND: int := 1_000_000_000

  // ---- Table operations -------------------------------------------------------------

  function UpsertDatastream(db: Tables, s: StreamId, cadence: int): Tables {
    if s in db.rows then
      db.(rows := db.rows[s := db.rows[s].(expectedCadence := cadence)])
    else
      db.(rows := db.rows[s := Row(None, None, None, cadence)])
  }

  /** `UPDATE ... WHERE poll_cursor IS NULL OR poll_cursor < $2`: never backwards. */
  function AdvancePollCursor(db: Tables, s: StreamId, to: Time): (r: Tables)
    ensures r.log == db.log && r.rows.Keys == db.rows.Keys
    ensures s in db.rows ==>
              && r.rows[s] == db.rows[s].(pollCursor := r.rows[s].pollCursor)
              && r.rows[s].pollCursor.Some? && r.rows[s].pollCursor.value >= to
              && (r.rows[s].pollCursor == Some(to) || r.rows[s].pollCursor == db.rows[s].pollCursor)
    ensures forall o :: o in db.rows && o != s ==> r.rows[o] == db.rows[o]
  {
    if s in db.rows && (db.rows[s].pollCursor.None? || db.rows[s].pollCursor.value < to) then
      db.(rows := db.rows[s := db.rows[s].(pollCursor := Some(to))])
    else
      db
  }

  function SetLastPolledAt(db: Tables, s: StreamId, at: Time): Tables {
    if s in db.rows then
      db.(rows := db.rows[s := db.rows[s].(lastPolledAt := Some(at))])
    else
      db
  }

  datatype RecordOutcome = Inserted | AlreadyExists | NoSuchStream

  /** What the INSERT answers: the foreign key and the unique constraint decide. */
  function RecordOutcomeOf(db: Tables, k: LogKey): RecordOutcome {
    if k.stream !in db.rows then NoSuchStream
    else if k in db.log then AlreadyExists
    else Inserted
  }

  /** One transaction: insert the log row and raise last_written_at, or change nothing. */
  function RecordObservationWrite(db: Tables, k: LogKey, row: LogRow): Tables {
    if RecordOutcomeOf(db, k) != Inserted then db
    else
      var r := db.rows[k.stream];
      var newer := r.lastWrittenAt.None? || r.lastWrittenAt.value < k.time;
      Tables(
        if newer then db.rows[k.stream := r.(lastWrittenAt := Some(k.time))] else db.rows,
        db.log[k := row])
  }

  function PurgeOldWriteLog(db: Tables, cutoff: Time): Tables {
    db.(log := map k | k in db.log && db.log[k].writtenAt >= cutoff :: db.log[k])
  }

  // ---- Staleness --------------------------------------------------------------------

  function Threshold(r: Row): int {
    Max(3 * r.expectedCadence, 3600) * SECOND
  }

  /** Stale: polled at least once, and nothing written or the newest write too old. */
  predicate Stale(r: Row, now: Time) {
    && r.lastPolledAt.Some?
    && (r.lastWrittenAt.None? || now - r.lastWrittenAt.value > Threshold(r))
  }

  /** In plain numbers: the newest write is older than three cadences and than an hour. */
  lemma StaleIff(r: Row, now: Time)
    ensures Stale(r, now) <==>
              && r.lastPolledAt.Some?
              && (|| r.lastWrittenAt.None?
                  || (&& now - r.lastWrittenAt.value > 3 * r.expectedCadence * 1_000_000_000
                      && now - r.lastWrittenAt.value > 60 * 60 * 1_000_000_000))
  {
  }

  function Polled(db: Tables): set<StreamId> {
    set s | s in db.rows && db.rows[s].lastPolledAt.Some?
  }

  function StaleStreams(db: Tables, now: Time): set<StreamId> {
    set s | s in db.rows && Stale(db.rows[s], now)
  }

  /** How many stale streams a snapshot names. */
  const EXAMPLES := 5

  /** The query's order: never written first, then by the newest written time. */
  predicate NoNewer(a: Row, b: Row) {
    a.lastWrittenAt.None? || (b.lastWrittenAt.Some? && a.lastWrittenAt.value <= b.lastWrittenAt.value)
  }

  function Members(streams: seq<StreamId>): set<StreamId> {
    set i | 0 <= i < |streams| :: streams[i]
  }

  lemma MembersOneMore(streams: seq<StreamId>, s: StreamId)
    ensures Members(streams + [s]) == Members(streams) + {s}
  {
    forall x | x in Members(streams) + {s} ensures x in Members(streams + [s]) {
      if x == s {
        assert (streams + [s])[|streams|] == x;
      } else {
        var i :| 0 <= i < |streams| && streams[i] == x;
        assert (streams + [s])[i] == x;
      }
    }
  }

  /** The `n` oldest of the streams, oldest first, none newer than a stream left out. */
  predicate AreOldest(rows: map<StreamId, Row>, streams: set<StreamId>, examples: seq<StreamId>, n: int)
    requires streams <= rows.Keys
  {
    && |examples| == n
    && Members(examples) <= streams
    && (forall i, j :: 0 <= i < j < |examples| ==>
          examples[i] != examples[j] && NoNewer(rows[examples[i]], rows[examples[j]]))
    && (forall i, s :: 0 <= i < |examples| && s in streams && s !in Members(examples) ==>
          NoNewer(rows[examples[i]], rows[s]))
  }

  lemma OldestOneMore(rows: map<StreamId, Row>, streams: set<StreamId>, examples: seq<StreamId>, n: int, s: StreamId)
    requires streams <= rows.Keys && AreOldest(rows, streams, examples, n)
    requires s in streams && s !in Members(examples)
    requires forall o :: o in streams && o !in Members(examples) ==> NoNewer(rows[s], rows[o])
    ensures Members(examples + [s]) == Members(examples) + {s}
    ensures AreOldest(rows, streams, examples + [s], n + 1)
  {
    MembersOneMore(examples, s);
    forall i | 0 <= i < |examples| ensures examples[i] in Members(examples) {
    }
  }

  predicate IsSample(db: Tables, now: Time, examples: seq<StreamId>) {
    var stale := StaleStreams(db, now);
    AreOldest(db.rows, stale, examples, if |stale| < EXAMPLES then |stale| else EXAMPLES)
  }

  /** The streams a snapshot names have waited longest: a stale stream it leaves out has been
      written, and none that it names has been written later. */
  lemma SampleWaitsLongest(db: Tables, now: Time, examples: seq<StreamId>, i: nat, s: StreamId)
    requires IsSample(db, now, examples) && i < |examples|
    requires s in StaleStreams(db, now) && s !in Members(examples)
    ensures examples[i] in StaleStreams(db, now)
    ensures var shown, hidden := db.rows[examples[i]].lastWrittenAt, db.rows[s].lastWrittenAt;
            shown.Some? ==> hidden.Some? && shown.value <= hidden.value
  {
    assert examples[i] in Members(examples);
  }

  method AnyOf<T>(items: set<T>) returns (x: T)
    requires items != {}
    ensures x in items
  {
    x :| x in items;
  }

  lemma AreAll(db: Tables, now: Time, polled: set<StreamId>, late: set<StreamId>)
    requires forall s :: s in polled <==> s in db.rows && db.rows[s].lastPolledAt.Some?
    requires forall s :: s in late <==> s in db.rows && Stale(db.rows[s], now)
    ensures polled == Polled(db) && late == StaleStreams(db, now)
  {
    assert forall s :: s in polled ==> s in Polled(db);
    assert forall s :: s in Polled(db) ==> s in polled;
    assert forall s :: s in late ==> s in StaleStreams(db, now);
    assert forall s :: s in StaleStreams(db, now) ==> s in late;
  }

  // ---- The store as the source's class ------------------------------------------------

  class PGStore {
    var rows: map<StreamId, Row>
    var log: map<LogKey, LogRow>

    function Value(): Tables
      reads this
    {
      Tables(rows, log)
    }

    constructor ()
      ensures Value() == Tables(map[], map[])
    {
      rows, log := map[], map[];
    }

    method Upsert(s: StreamId, cadence: int)
      modifies this
      ensures Value() == UpsertDatastream(old(Value()), s, cadence)
    {
      if s in rows {
        rows := rows[s := rows[s].(expectedCadence := cadence)];
      } else {
        rows := rows[s := Row(None, None, None, cadence)];
      }
    }

    /** The stored cursor, the zero time when it is NULL, or no row at all. */
    method GetPollCursor(s: StreamId) returns (cursor: Option<Time>)
      ensures cursor.Some? <==> s in rows
      ensures s in rows ==>
                cursor.value == if rows[s].pollCursor.Some? then rows[s].pollCursor.value else ZERO_TIME
    {
      if s !in rows {
        return None;
      }
      match rows[s].pollCursor {
        case None => cursor := Some(ZERO_TIME);
        case Some(c) => cursor := Some(c);
      }
    }

    method Advance(s: StreamId, to: Time)
      modifies this
      ensures Value() == AdvancePollCursor(old(Value()), s, to)
    {
      if s in rows && (rows[s].pollCursor.None? || rows[s].pollCursor.value < to) {
        rows := rows[s := rows[s].(pollCursor := Some(to))];
      }
    }

    method MarkPolled(s: StreamId, at: Time)
      modifies this
      ensures Value() == SetLastPolledAt(old(Value()), s, at)
    {
      if s in rows {
        rows := rows[s := rows[s].(lastPolledAt := Some(at))];
      }
    }

    method ObservationExists(k: LogKey) returns (found: bool)
      ensures found <==> k in log
    {
      found := k in log;
    }

    method Record(k: LogKey, row: LogRow) returns (outcome: RecordOutcome)
      modifies this
      ensures outcome == RecordOutcomeOf(old(Value()), k)
      ensures Value() == RecordObservationWrite(old(Value()), k, row)
    {
      if k.stream !in rows {
        return NoSuchStream;
      }
      if k in log {
        return AlreadyExists;
      }
      log := log[k := row];
      var r := rows[k.stream];
      if r.lastWrittenAt.None? || r.lastWrittenAt.value < k.time {
        rows := rows[k.stream := r.(lastWrittenAt := Some(k.time))];
      }
      outcome := Inserted;
    }

    /** Deletes the rows written before `cutoff` and reports how many went. */
    method Purge(cutoff: Time) returns (deleted: nat)
      modifies this
      ensures Value() == PurgeOldWriteLog(old(Value()), cutoff)
      ensures deleted == |old(log)| - |log| && rows == old(rows)
      ensures forall k :: k in log <==> k in old(log) && old(log)[k].writtenAt >= cutoff
      ensures forall k :: k in log ==> log[k] == old(log)[k]
    {
      var kept := map k | k in log && log[k].writtenAt >= cutoff :: log[k];
      FewerKeys(kept.Keys, log.Keys);
      deleted := |log.Keys| - |kept.Keys|;
      log := kept;
    }

    /** Counts the polled and the stale streams and names the five that have waited
        longest. */
    method GetStalenessSnapshot(now: Time) returns (total: nat, stale: nat, examples: seq<StreamId>)
      ensures total == |Polled(Value())| && stale == |StaleStreams(Value(), now)| && stale <= total
      ensures IsSample(Value(), now, examples)
    {
      ghost var polled := {};
      var late: set<StreamId>, rest := {}, rows.Keys;
      total, stale := 0, 0;
      while rest != {}
        invariant rest <= rows.Keys
        invariant forall s :: s in polled <==> s in rows && s !in rest && rows[s].lastPolledAt.Some?
        invariant forall s :: s in late <==> s in rows && s !in rest && Stale(rows[s], now)
        invariant total == |polled| && stale == |late|
        decreases |rest|
      {
        var s := AnyOf(rest);
        if rows[s].lastPolledAt.Some? {
          total, polled := total + 1, polled + {s};
        }
        if Stale(rows[s], now) {
          stale, late := stale + 1, late + {s};
        }
        rest := rest - {s};
      }
      AreAll(Value(), now, polled, late);
      FewerKeys(late, polled);
      examples := LongestWaiting(late);
    }

    method LongestWaiting(streams: set<StreamId>) returns (examples: seq<StreamId>)
      requires streams <= rows.Keys
      ensures AreOldest(rows, streams, examples, if |streams| < EXAMPLES then |streams| else EXAMPLES)
    {
      examples := [];
      var rest := streams;
      while rest != {} && |examples| < EXAMPLES
        invariant AreOldest(rows, streams, examples, |streams| - |rest|) && |examples| <= EXAMPLES
        invariant rest == streams - Members(examples)
        decreases |rest|
      {
        var s := Oldest(rest);
        OldestOneMore(rows, streams, examples, |streams| - |rest|, s);
        examples, rest := examples + [s], rest - {s};
      }
    }

    method Oldest(streams: set<StreamId>) returns (oldest: StreamId)
      requires streams != {} && streams <= rows.Keys
      ensures oldest in streams && forall s :: s in streams ==> NoNewer(rows[oldest], rows[s])
    {
      oldest := AnyOf(streams);
      var rest := streams - {oldest};
      while rest != {}
        invariant rest <= streams && oldest in streams - rest
        invariant forall s :: s in streams - rest ==> NoNewer(rows[oldest], rows[s])
        decreases |rest|
      {
        var s := AnyOf(rest);
        if NoNewer(rows[s], rows[oldest]) {
          oldest := s;
        }
        rest := rest - {s};
      }
    }
  }

  lemma FewerKeys<T>(a: set<T>, b: set<T>)
    requires a <= b
    ensures |a| <= |b|
  {
    assert b == a + (b - a);
  }

  // ---- Runs of table operations -----------------------------------------------------

  datatype Op =
    | UpsertOp(s: StreamId, cadence: int)
    | AdvanceOp(s: StreamId, to: Time)
    | PolledOp(s: StreamId, at: Time)
    | RecordOp(key: LogKey, row: LogRow)
    | PurgeOp(cutoff: Time)

  function Apply(db: Tables, op: Op): Tables {
    match op
    case UpsertOp(s, cadence) => UpsertDatastream(db, s, cadence)
    case AdvanceOp(s, to) => AdvancePollCursor(db, s, to)
    case PolledOp(s, at) => SetLastPolledAt(db, s, at)
    case RecordOp(k, row) => RecordObservationWrite(db, k, row)
    case PurgeOp(cutoff) => PurgeOldWriteLog(db, cutoff)
  }

  function ApplyAll(db: Tables, ops: seq<Op>): Tables {
    if ops == [] then db else Apply(ApplyAll(db, ops[..|ops| - 1]), ops[|ops| - 1])
  }

  /** The keys for which the run inserted a row, whether or not a purge removed it since. */
  function EverLogged(db: Tables, ops: seq<Op>): set<LogKey> {
    if ops == [] then db.log.Keys
    else
      var init := ops[..|ops| - 1];
      var op := ops[|ops| - 1];
      if op.RecordOp? && RecordOutcomeOf(ApplyAll(db, init), op.key) == Inserted
      then EverLogged(db, init) + {op.key}
      else EverLogged(db, init)
  }

  /** last_written_at of every stream is the greatest phenomenon time in `logged`. */
  predicate IndexIsMax(db: Tables, logged: set<LogKey>) {
    && db.log.Keys <= logged
    && (forall k :: k in logged ==> k.stream in db.rows)
    && (forall s :: s in db.rows ==> NewestIs(db.rows[s].lastWrittenAt, logged, s))
  }

  /** `newest` is the greatest time in `logged` of stream `s`, if there is one. */
  predicate NewestIs(newest: Option<Time>, logged: set<LogKey>, s: StreamId) {
    match newest
    case None => forall k :: k in logged ==> k.stream != s
    case Some(m) => LogKey(s, m) in logged && forall k :: k in logged && k.stream == s ==> k.time <= m
  }

  lemma NewestOneMore(newest: Option<Time>, logged: set<LogKey>, s: StreamId, key: LogKey)
    requires NewestIs(newest, logged, s)
    ensures NewestIs(if key.stream != s || (newest.Some? && newest.value >= key.time) then newest else Some(key.time),
                     logged + {key}, s)
  {
    if newest.Some? && key.stream == s && newest.value < key.time {
      assert key == LogKey(s, key.time);
    }
  }

  lemma RecordKeepsIndex(db: Tables, logged: set<LogKey>, key: LogKey, row: LogRow)
    requires IndexIsMax(db, logged) && RecordOutcomeOf(db, key) == Inserted
    ensures IndexIsMax(RecordObservationWrite(db, key, row), logged + {key})
  {
    var db' := RecordObservationWrite(db, key, row);
    forall s | s in db'.rows ensures NewestIs(db'.rows[s].lastWrittenAt, logged + {key}, s) {
      NewestOneMore(db.rows[s].lastWrittenAt, logged, s, key);
    }
  }

  lemma OtherOpKeepsIndex(db: Tables, logged: set<LogKey>, op: Op)
    requires IndexIsMax(db, logged) && !(op.RecordOp? && RecordOutcomeOf(db, op.key) == Inserted)
    ensures IndexIsMax(Apply(db, op), logged)
  {
  }

  /** Freshness index: over every run of upserts, cursor moves, records, conflicts and
      purges, last_written_at is exactly the newest phenomenon time ever logged. */
  lemma {:induction false} LastWrittenIsNewestEverLogged(db: Tables, ops: seq<Op>)
    requires IndexIsMax(db, db.log.Keys)
    ensures IndexIsMax(ApplyAll(db, ops), EverLogged(db, ops))
  {
    if ops != [] {
      var init, op := ops[..|ops| - 1], ops[|ops| - 1];
      LastWrittenIsNewestEverLogged(db, init);
      if op.RecordOp? && RecordOutcomeOf(ApplyAll(db, init), op.key) == Inserted {
        RecordKeepsIndex(ApplyAll(db, init), EverLogged(db, init), op.key, op.row);
      } else {
        OtherOpKeepsIndex(ApplyAll(db, init), EverLogged(db, init), op);
      }
    }
  }

  /** A polled stream that is stale stays stale at every later instant, across any run
      that leaves its cadence alone, until a newer phenomenon time is inserted for it. */
  lemma {:induction false} StaleUntilNewerWrite(db: Tables, ops: seq<Op>, s: StreamId, t1: Time, t2: Time)
    requires s in db.rows && Stale(db.rows[s], t1) && t1 <= t2
    requires forall i :: 0 <= i < |ops| ==> !(ops[i].UpsertOp? && ops[i].s == s)
    ensures s in ApplyAll(db, ops).rows
    ensures var r := ApplyAll(db, ops).rows[s];
            && r.expectedCadence == db.rows[s].expectedCadence
            && (Stale(r, t2) || NewerInserted(db, ops, s))
            && (!NewerInserted(db, ops, s) ==> r.lastWrittenAt == db.rows[s].lastWrittenAt)
            && r.lastPolledAt.Some?
  {
    if ops != [] {
      var n := |ops| - 1;
      StaleUntilNewerWrite(db, ops[..n], s, t1, t2);
      assert forall i :: 0 <= i < n ==> ops[..n][..i] == ops[..i];
      if NewerInserted(db, ops[..n], s) {
        var i :| 0 <= i < n && InsertsNewer(db, ops[..n], i, s);
        assert InsertsNewer(db, ops, i, s);
      } else if ops[n].RecordOp? && ops[n].key.stream == s
                && RecordOutcomeOf(ApplyAll(db, ops[..n]), ops[n].key) == Inserted
                && (db.rows[s].lastWrittenAt.None? || db.rows[s].lastWrittenAt.value < ops[n].key.time) {
        assert InsertsNewer(db, ops, n, s);
      }
    }
  }

  /** Operation `i` of the run inserts a row of `s` newer than its first last_written_at. */
  predicate InsertsNewer(db: Tables, ops: seq<Op>, i: nat, s: StreamId)
    requires i < |ops| && s in db.rows
  {
    && ops[i].RecordOp? && ops[i].key.stream == s
    && RecordOutcomeOf(ApplyAll(db, ops[..i]), ops[i].key) == Inserted
    && (db.rows[s].lastWrittenAt.None? || db.rows[s].lastWrittenAt.value < ops[i].key.time)
  }

  predicate NewerInserted(db: Tables, ops: seq<Op>, s: StreamId)
    requires s in db.rows
  {
    exists i :: 0 <= i < |ops| && InsertsNewer(db, ops, i, s)
  }

  /** The poll cursor of a stream never moves back, whatever runs. */
  lemma {:induction false} CursorNeverMovesBack(db: Tables, ops: seq<Op>, s: StreamId)
    requires s in db.rows && db.rows[s].pollCursor.Some?
    ensures s in ApplyAll(db, ops).rows
    ensures var c := ApplyAll(db, ops).rows[s].pollCursor;
            c.Some? && c.value >= db.rows[s].pollCursor.value
  {
    if ops != [] {
      CursorNeverMovesBack(db, ops[..|ops| - 1], s);
    }
  }
}
