/** The Collaborall reader's delivery across failed posts, failed cursor writes and restarts
    (runOnce, cmd/collaborall-reader/run.go; cursorStore, cmd/collaborall-reader/cursor.go),
    as a state machine. A crash, or a new source row, may fall between any two effects. */
module Delivery {
  import opened Canonical
  import opened Chunking

  /** A source Datastream's id; its decimal form keys the cursor file. */
  type Key = int

  /** One Observation of the source server, as far as the reader can decode it. */
  datatype Row = Readable(o: Observation) | Unreadable(at: Time)

  function TimeOf(r: Row): Time {
    match r
    case Readable(o) => o.phenomenonTime
    case Unreadable(at) => at
  }

  datatype Config = Config(lookback: int, pageLimit: nat)

  /** One stream's turn of a cycle: `sent` of its observations were acknowledged so far. */
  datatype Phase = Idle | Posting(key: Key, since: Time, obs: seq<Observation>, sent: nat)

  /** `mem` and `file` are the cursors in the process and on disk; `acked` is what the push
      endpoint has answered 2xx for. `seeds` are the lookback starts of the cycles that found
      no cursor; `memBase` and `fileBase` remember, for each cursor, the one it began with. */
  datatype World = World(
    source: map<Key, seq<Row>>,
    mem: map<Key, Time>, file: map<Key, Time>,
    acked: set<(Key, Time)>, seeds: set<(Key, Time)>,
    memBase: map<Key, Time>, fileBase: map<Key, Time>,
    phase: Phase)

  datatype Event =
    | Begun(key: Key, now: Time, fetched: bool)
    | Posted(n: nat)
    | PostFailed
    | Advanced(written: bool)
    | Crash
    | Arrived(at: Key, row: Row)

  predicate Fresh(w: World) {
    && w.mem == map[] && w.file == map[] && w.acked == {} && w.seeds == {} && w.phase == Idle
    && w.memBase == map[] && w.fileBase == map[]
    && forall k :: k in w.source ==> Ordered(w.source[k])
  }

  /** The source sorts by phenomenon time, ties in any order. */
  predicate Ordered(rows: seq<Row>) {
    forall i, j :: 0 <= i < j < |rows| ==> TimeOf(rows[i]) <= TimeOf(rows[j])
  }

  // ---- The fetch ----------------------------------------------------------------------

  /** phenomenonTime gt since, with no filter for a zero `since`. */
  predicate Wanted(r: Row, since: Time) {
    since != ZERO_TIME ==> TimeOf(r) > since
  }

  function After(rows: seq<Row>, since: Time): seq<Row> {
    if rows == [] then []
    else if Wanted(rows[0], since) then [rows[0]] + After(rows[1..], since)
    else After(rows[1..], since)
  }

  function Page(rows: seq<Row>, since: Time, limit: nat): seq<Row> {
    var after := After(rows, since);
    if |after| <= limit then after else after[..limit]
  }

  function Decoded(rows: seq<Row>): seq<Observation> {
    if rows == [] then []
    else if rows[0].Readable? then [rows[0].o] + Decoded(rows[1..])
    else Decoded(rows[1..])
  }

  /** FetchObservations: the limit cuts the page before undecodable rows are skipped. */
  function Fetch(rows: seq<Row>, since: Time, limit: nat): seq<Observation> {
    Decoded(Page(rows, since, limit))
  }

  // ---- Steps --------------------------------------------------------------------------

  /** cursorStore.get: the zero time when unset. */
  function Get(cursors: map<Key, Time>, key: Key): Time {
    if key in cursors then cursors[key] else ZERO_TIME
  }

  function SinceOf(cfg: Config, w: World, key: Key, now: Time): Time {
    var c := Get(w.mem, key);
    if c == ZERO_TIME then now - cfg.lookback else c
  }

  function Begin(cfg: Config, w: World, key: Key, now: Time): World {
    var since := SinceOf(cfg, w, key, now);
    var obs := if key in w.source then Fetch(w.source[key], since, cfg.pageLimit) else [];
    if obs == [] then w
    else
      w.(phase := Posting(key, since, obs, 0),
         seeds := if Get(w.mem, key) == ZERO_TIME then w.seeds + {(key, since)} else w.seeds)
  }

  /** The next `n` observations were answered 2xx. */
  function Acknowledge(w: World, n: nat): World
    requires w.phase.Posting? && w.phase.sent + n <= |w.phase.obs|
  {
    var ph := w.phase;
    w.(acked := w.acked + (set i | ph.sent <= i < ph.sent + n :: (ph.key, ph.obs[i].phenomenonTime)),
       phase := ph.(sent := ph.sent + n))
  }

  /** cursorStore.advance, whose write of the file may fail after the map has moved. */
  function Advance(w: World, written: bool): World
    requires w.phase.Posting? && w.phase.obs != []
  {
    var ph := w.phase;
    var ts := Newest(ph.obs);
    if ph.key in w.mem && ts <= w.mem[ph.key] then w.(phase := Idle)
    else
      var base := if Get(w.mem, ph.key) == ZERO_TIME then ph.since else BaseOf(w, ph.key);
      var w' := w.(mem := w.mem[ph.key := ts], memBase := w.memBase[ph.key := base], phase := Idle);
      if written then w'.(file := w'.mem, fileBase := w'.memBase) else w'
  }

  function BaseOf(w: World, key: Key): Time {
    if key in w.memBase then w.memBase[key] else ZERO_TIME
  }

  function Step(cfg: Config, w: World, e: Event): World {
    match e
    case Begun(key, now, fetched) => if w.phase.Idle? && fetched then Begin(cfg, w, key, now) else w
    case Posted(n) =>
      if w.phase.Posting? && w.phase.sent + n <= |w.phase.obs| then Acknowledge(w, n) else w
    case PostFailed => w.(phase := Idle)
    case Advanced(written) =>
      if w.phase.Posting? && w.phase.obs != [] && w.phase.sent == |w.phase.obs| then Advance(w, written) else w
    case Crash => w.(mem := w.file, memBase := w.fileBase, phase := Idle)
    case Arrived(k, row) =>
      w.(source := w.source[k := (if k in w.source then w.source[k] else []) + [row]])
  }

  function Run(cfg: Config, w: World, es: seq<Event>): World {
    if es == [] then w else Step(cfg, Run(cfg, w, es[..|es| - 1]), es[|es| - 1])
  }

  /** New rows are not older than the ones a stream already has. */
  predicate InOrder(w: World, e: Event) {
    e.Arrived? && e.at in w.source && w.source[e.at] != [] ==>
      TimeOf(e.row) >= TimeOf(w.source[e.at][|w.source[e.at]| - 1])
  }

  predicate InOrderRun(cfg: Config, w: World, es: seq<Event>) {
    forall i :: 0 <= i < |es| ==> InOrder(Run(cfg, w, es[..i]), es[i])
  }

  // ---- What the fetch returns ---------------------------------------------------------

  lemma {:induction false} AfterIsATail(rows: seq<Row>, since: Time)
    requires Ordered(rows)
    ensures |After(rows, since)| <= |rows|
    ensures After(rows, since) == rows[|rows| - |After(rows, since)|..]
    ensures forall i :: 0 <= i < |rows| - |After(rows, since)| ==> !Wanted(rows[i], since)
    ensures forall i :: |rows| - |After(rows, since)| <= i < |rows| ==> Wanted(rows[i], since)
  {
    if rows != [] {
      AfterIsATail(rows[1..], since);
      if Wanted(rows[0], since) {
        assert forall i :: 0 <= i < |rows| - 1 ==> rows[1..][i] == rows[i + 1];
        assert forall i :: 0 <= i < |rows[1..]| ==> Wanted(rows[1..][i], since);
        assert |After(rows[1..], since)| == |rows[1..]|;
      } else {
        assert forall i :: 0 < i < |rows| ==> rows[i] == rows[1..][i - 1];
      }
    }
  }

  lemma {:induction false} DecodedMembers(rows: seq<Row>)
    ensures forall o :: o in Decoded(rows) <==> Readable(o) in rows
    ensures Decoded(rows) == [] <==> forall i :: 0 <= i < |rows| ==> rows[i].Unreadable?
  {
    if rows != [] {
      DecodedMembers(rows[1..]);
      assert rows == [rows[0]] + rows[1..];
    }
  }

  /** The readable rows of the source between `since` and `upTo` all have their instant in
      `obs`. */
  predicate Covers(rows: seq<Row>, since: Time, upTo: Time, obs: seq<Observation>) {
    forall i :: 0 <= i < |rows| && rows[i].Readable? && since < TimeOf(rows[i]) <= upTo ==>
      HasTime(obs, TimeOf(rows[i]))
  }

  /** A page is a slice of the source that starts at its first row after `since`. */
  lemma PageIsASlice(rows: seq<Row>, since: Time, limit: nat) returns (from: nat)
    requires Ordered(rows)
    ensures var page := Page(rows, since, limit);
            && from + |page| <= |rows|
            && (forall i :: 0 <= i < |page| ==> page[i] == rows[from + i] && Wanted(page[i], since))
            && (forall i :: 0 <= i < from ==> !Wanted(rows[i], since))
  {
    AfterIsATail(rows, since);
    from := |rows| - |After(rows, since)|;
  }

  /** A decoded row is one of the page's, and the newest one is the page's newest. */
  lemma NewestOnPage(page: seq<Row>) returns (n: nat)
    requires Decoded(page) != []
    ensures n < |page| && page[n].Readable? && TimeOf(page[n]) == Newest(Decoded(page))
  {
    var obs := Decoded(page);
    DecodedMembers(page);
    var m :| 0 <= m < |obs| && obs[m].phenomenonTime == Newest(obs);
    assert obs[m] in obs;
    n :| 0 <= n < |page| && page[n] == Readable(obs[m]);
  }

  lemma ReadableIsDecoded(page: seq<Row>, i: nat)
    requires i < |page| && page[i].Readable?
    ensures HasTime(Decoded(page), TimeOf(page[i]))
  {
    DecodedMembers(page);
    assert Readable(page[i].o) in page;
    assert page[i].o in Decoded(page);
  }

  /** A fetched page leaves out no readable instant up to its newest one: rows beyond the
      limit are not older, and a tie counts by its time. */
  lemma FetchCovers(rows: seq<Row>, since: Time, limit: nat)
    requires Ordered(rows)
    requires Fetch(rows, since, limit) != []
    ensures var obs := Fetch(rows, since, limit);
            && Covers(rows, since, Newest(obs), obs)
            && rows != [] && Newest(obs) <= TimeOf(rows[|rows| - 1])
            && (since != ZERO_TIME ==> Newest(obs) > since)
  {
    var page, obs := Page(rows, since, limit), Fetch(rows, since, limit);
    var from := PageIsASlice(rows, since, limit);
    var n := NewestOnPage(page);
    assert rows[from + n] == page[n] && Wanted(page[n], since);
    forall i | 0 <= i < |rows| && rows[i].Readable? && since < TimeOf(rows[i]) <= Newest(obs)
      ensures HasTime(obs, TimeOf(rows[i]))
    {
      assert i >= from;
      if i - from < |page| {
        ReadableIsDecoded(page, i - from);
      }
    }
  }

  lemma {:induction false} DecodedIsOrdered(rows: seq<Row>)
    requires Ordered(rows)
    ensures |Decoded(rows)| <= |rows|
    ensures forall i, j :: 0 <= i < j < |Decoded(rows)| ==>
              Decoded(rows)[i].phenomenonTime <= Decoded(rows)[j].phenomenonTime
  {
    if rows != [] {
      DecodedIsOrdered(rows[1..]);
      DecodedMembers(rows[1..]);
      forall o | o in Decoded(rows[1..]) ensures TimeOf(rows[0]) <= o.phenomenonTime {
        assert Readable(o) in rows[1..];
        var k :| 0 <= k < |rows[1..]| && rows[1..][k] == Readable(o);
        assert rows[k + 1] == Readable(o);
      }
    }
  }

  /** A fetch is at most a page long, oldest first, and of rows after `since` only. */
  lemma FetchIsOrdered(rows: seq<Row>, since: Time, limit: nat)
    requires Ordered(rows)
    ensures var obs := Fetch(rows, since, limit);
            && |obs| <= limit
            && (forall i, j :: 0 <= i < j < |obs| ==> obs[i].phenomenonTime <= obs[j].phenomenonTime)
            && (forall o :: o in obs ==> Readable(o) in rows && (since != ZERO_TIME ==> o.phenomenonTime > since))
  {
    var page := Page(rows, since, limit);
    var from := PageIsASlice(rows, since, limit);
    DecodedIsOrdered(page);
    DecodedMembers(page);
    forall o | o in Decoded(page) ensures Readable(o) in rows && (since != ZERO_TIME ==> o.phenomenonTime > since) {
      var i :| 0 <= i < |page| && page[i] == Readable(o);
      assert rows[from + i] == page[i];
    }
  }

  /** A cycle whose page was fetched goes on to post exactly when some row of the page is
      readable; otherwise it leaves everything as it was. */
  lemma StreamMovesIff(cfg: Config, w: World, key: Key, now: Time)
    requires w.phase.Idle? && key in w.source
    ensures Step(cfg, w, Begun(key, now, true)).phase.Posting? <==>
            exists r :: r in Page(w.source[key], SinceOf(cfg, w, key, now), cfg.pageLimit) && r.Readable?
    ensures Step(cfg, w, Begun(key, now, true)).phase.Idle? ==> Step(cfg, w, Begun(key, now, true)) == w
  {
    var page := Page(w.source[key], SinceOf(cfg, w, key, now), cfg.pageLimit);
    DecodedMembers(page);
    if exists r :: r in page && r.Readable? {
      var r :| r in page && r.Readable?;
      assert Readable(r.o) in page;
    }
  }

  // ---- What every step keeps --------------------------------------------------------------

  /** Every readable instant of `key` in (base, upTo] was in an acknowledged envelope. */
  predicate Delivered(w: World, key: Key, base: Time, upTo: Time) {
    key in w.source ==>
      forall i :: 0 <= i < |w.source[key]| && w.source[key][i].Readable?
                  && base < TimeOf(w.source[key][i]) <= upTo ==>
        (key, TimeOf(w.source[key][i])) in w.acked
  }

  /** A cursor that stands on an acknowledged instant of the source, with nothing missing
      between it and its base. */
  predicate CursorOk(w: World, key: Key, base: map<Key, Time>, c: Time) {
    && key in base && (key, base[key]) in w.seeds
    && Reached(w, key, c)
    && (key, c) in w.acked
    && Delivered(w, key, base[key], c)
  }

  /** The source has rows as new as `t`. */
  predicate Reached(w: World, key: Key, t: Time) {
    && key in w.source && w.source[key] != []
    && t <= TimeOf(w.source[key][|w.source[key]| - 1])
  }

  predicate PostingOk(w: World, ph: Phase)
    requires ph.Posting?
  {
    && ph.obs != [] && ph.sent <= |ph.obs|
    && Reached(w, ph.key, Newest(ph.obs))
    && (if Get(w.mem, ph.key) == ZERO_TIME then (ph.key, ph.since) in w.seeds else ph.since == Get(w.mem, ph.key))
    && Covers(w.source[ph.key], ph.since, Newest(ph.obs), ph.obs)
    && (forall i :: 0 <= i < ph.sent ==> (ph.key, ph.obs[i].phenomenonTime) in w.acked)
  }

  predicate Inv(w: World) {
    && (forall k :: k in w.source ==> Ordered(w.source[k]))
    && (forall k :: k in w.mem ==> CursorOk(w, k, w.memBase, w.mem[k]))
    && (forall k :: k in w.file ==> CursorOk(w, k, w.fileBase, w.file[k]))
    && Behind(w.file, w.mem)
    && (w.phase.Posting? ==> PostingOk(w, w.phase))
  }

  /** Every cursor of `a` is in `b`, where it is not older. */
  predicate Behind(a: map<Key, Time>, b: map<Key, Time>) {
    forall k :: k in a ==> k in b && a[k] <= b[k]
  }

  lemma BeginKeepsInv(cfg: Config, w: World, key: Key, now: Time)
    requires Inv(w)
    ensures Inv(Begin(cfg, w, key, now))
  {
    var since := SinceOf(cfg, w, key, now);
    if key in w.source && Fetch(w.source[key], since, cfg.pageLimit) != [] {
      FetchCovers(w.source[key], since, cfg.pageLimit);
    }
  }

  /** More acknowledgements, or seeds, spoil nothing. */
  lemma AckKeepsCursor(w: World, w': World, key: Key, base: map<Key, Time>, c: Time)
    requires CursorOk(w, key, base, c)
    requires w'.source == w.source && w.acked <= w'.acked && w.seeds <= w'.seeds
    ensures CursorOk(w', key, base, c)
  {
  }

  lemma AcknowledgeKeepsInv(w: World, n: nat)
    requires Inv(w) && w.phase.Posting? && w.phase.sent + n <= |w.phase.obs|
    ensures Inv(Acknowledge(w, n))
  {
  }

  /** The cursor moves over exactly what was acknowledged. */
  lemma AdvanceIsDelivered(w: World)
    requires Inv(w) && w.phase.Posting? && w.phase.sent == |w.phase.obs|
    ensures var ph := w.phase;
            var base := if Get(w.mem, ph.key) == ZERO_TIME then ph.since else BaseOf(w, ph.key);
            CursorOk(w, ph.key, map[ph.key := base], Newest(ph.obs))
  {
  }

  lemma OtherAfterAdvance(w: World, written: bool, k: Key)
    requires Inv(w) && w.phase.Posting? && w.phase.obs != [] && k in w.mem
    requires k != w.phase.key || Newest(w.phase.obs) <= w.mem[k]
    ensures var w' := Advance(w, written); k in w'.mem && CursorOk(w', k, w'.memBase, w'.mem[k])
  {
    AckKeepsCursor(w, Advance(w, written), k, w.memBase, w.mem[k]);
  }

  lemma MemAfterAdvance(w: World, written: bool, k: Key)
    requires Inv(w) && w.phase.Posting? && w.phase.sent == |w.phase.obs|
    requires k in Advance(w, written).mem
    ensures var w' := Advance(w, written); CursorOk(w', k, w'.memBase, w'.mem[k])
  {
    var ph, w' := w.phase, Advance(w, written);
    if k in w.mem && (k != ph.key || Newest(ph.obs) <= w.mem[k]) {
      OtherAfterAdvance(w, written, k);
    } else {
      var base := if Get(w.mem, k) == ZERO_TIME then ph.since else BaseOf(w, k);
      AdvanceIsDelivered(w);
      AckKeepsCursor(w, w', k, map[k := base], Newest(ph.obs));
      assert w'.mem[k] == Newest(ph.obs) && w'.memBase[k] == base;
    }
  }

  lemma AdvanceKeepsInv(w: World, written: bool)
    requires Inv(w) && w.phase.Posting? && w.phase.sent == |w.phase.obs|
    ensures Inv(Advance(w, written))
  {
    var w' := Advance(w, written);
    forall k | k in w'.mem ensures CursorOk(w', k, w'.memBase, w'.mem[k]) {
      MemAfterAdvance(w, written, k);
    }
    forall k | k in w'.file ensures CursorOk(w', k, w'.fileBase, w'.file[k]) {
      if w'.file == w.file && w'.fileBase == w.fileBase {
        AckKeepsCursor(w, w', k, w.fileBase, w.file[k]);
      }
    }
  }

  /** A row that arrives in order is not older than any cursor: if it is as old, it ties
      with an instant that was acknowledged. */
  lemma ArrivalKeepsCursor(w: World, at: Key, row: Row, key: Key, base: map<Key, Time>, c: Time)
    requires CursorOk(w, key, base, c) && InOrder(w, Arrived(at, row))
    ensures CursorOk(Step(Config(0, 0), w, Arrived(at, row)), key, base, c)
  {
  }

  lemma ArrivalKeepsPosting(w: World, at: Key, row: Row)
    requires w.phase.Posting? && PostingOk(w, w.phase) && InOrder(w, Arrived(at, row))
    ensures PostingOk(Step(Config(0, 0), w, Arrived(at, row)), w.phase)
  {
    assert HasTime(w.phase.obs, Newest(w.phase.obs));
  }

  lemma ArrivalKeepsCursors(w: World, at: Key, row: Row, cursors: map<Key, Time>, base: map<Key, Time>)
    requires forall k :: k in cursors ==> CursorOk(w, k, base, cursors[k])
    requires InOrder(w, Arrived(at, row))
    ensures forall k :: k in cursors ==> CursorOk(Step(Config(0, 0), w, Arrived(at, row)), k, base, cursors[k])
  {
    forall k | k in cursors ensures CursorOk(Step(Config(0, 0), w, Arrived(at, row)), k, base, cursors[k]) {
      ArrivalKeepsCursor(w, at, row, k, base, cursors[k]);
    }
  }

  lemma ArrivalKeepsOrder(w: World, at: Key, row: Row)
    requires (forall k :: k in w.source ==> Ordered(w.source[k])) && InOrder(w, Arrived(at, row))
    ensures var w' := Step(Config(0, 0), w, Arrived(at, row)); forall k :: k in w'.source ==> Ordered(w'.source[k])
  {
  }

  lemma ArrivalKeepsInv(w: World, at: Key, row: Row)
    requires Inv(w) && InOrder(w, Arrived(at, row))
    ensures Inv(Step(Config(0, 0), w, Arrived(at, row)))
  {
    ArrivalKeepsOrder(w, at, row);
    ArrivalKeepsCursors(w, at, row, w.mem, w.memBase);
    ArrivalKeepsCursors(w, at, row, w.file, w.fileBase);
    if w.phase.Posting? {
      ArrivalKeepsPosting(w, at, row);
    }
  }

  lemma StepKeepsInv(cfg: Config, w: World, e: Event)
    requires Inv(w) && InOrder(w, e)
    ensures Inv(Step(cfg, w, e))
  {
    match e {
      case Begun(key, now, _) => BeginKeepsInv(cfg, w, key, now);
      case Posted(n) =>
        if w.phase.Posting? && w.phase.sent + n <= |w.phase.obs| { AcknowledgeKeepsInv(w, n); }
      case Advanced(written) =>
        if w.phase.Posting? && w.phase.sent == |w.phase.obs| { AdvanceKeepsInv(w, written); }
      case Arrived(at, row) => ArrivalKeepsInv(w, at, row);
      case _ =>
    }
  }

  lemma {:induction false} RunKeepsInv(cfg: Config, w: World, es: seq<Event>)
    requires Inv(w) && InOrderRun(cfg, w, es)
    ensures Inv(Run(cfg, w, es))
  {
    if es != [] {
      var n := |es| - 1;
      assert forall i :: 0 <= i <= n ==> es[..n][..i] == es[..i];
      assert forall i :: 0 <= i < n ==> es[..n][i] == es[i];
      RunKeepsInv(cfg, w, es[..n]);
      StepKeepsInv(cfg, Run(cfg, w, es[..n]), es[n]);
    }
  }

  // ---- Delivery across restarts -------------------------------------------------------------

  /** Whatever posts, cursor writes and processes fail, and wherever: the file's cursor is
      never ahead of memory's, and every readable source instant between the seed its
      cursor began with and the file's cursor was in an acknowledged envelope. The stream's
      first seed may lie before that one (module ReaderGaps). */
  lemma NothingBelowTheFileCursorIsLost(cfg: Config, w: World, es: seq<Event>, key: Key)
    requires Fresh(w) && InOrderRun(cfg, w, es)
    requires key in Run(cfg, w, es).file
    ensures var end := Run(cfg, w, es);
            && key in end.mem && end.file[key] <= end.mem[key]
            && key in end.fileBase && (key, end.fileBase[key]) in end.seeds
            && Delivered(end, key, end.fileBase[key], end.file[key])
            && key in end.memBase && (key, end.memBase[key]) in end.seeds
            && Delivered(end, key, end.memBase[key], end.mem[key])
  {
    RunKeepsInv(cfg, w, es);
    var end := Run(cfg, w, es);
    assert CursorOk(end, key, end.fileBase, end.file[key]);
    assert key in end.mem && CursorOk(end, key, end.memBase, end.mem[key]);
  }

  lemma AdvanceMovesForward(w: World, written: bool)
    requires Behind(w.file, w.mem) && w.phase.Posting? && w.phase.obs != []
    ensures var w' := Advance(w, written);
            Behind(w.file, w'.file) && Behind(w'.file, w'.mem) && Behind(w.mem, w'.mem)
  {
  }

  lemma StepMovesForward(cfg: Config, w: World, e: Event)
    requires Behind(w.file, w.mem)
    ensures var w' := Step(cfg, w, e);
            Behind(w.file, w'.file) && Behind(w'.file, w'.mem) && (!e.Crash? ==> Behind(w.mem, w'.mem))
  {
    if e.Advanced? && w.phase.Posting? && w.phase.obs != [] {
      AdvanceMovesForward(w, e.written);
    }
  }

  /** The file's cursors never move back, not even over a restart; memory's never move back
      within a process. */
  lemma {:induction false} CursorsNeverMoveBack(cfg: Config, w: World, es: seq<Event>)
    requires Behind(w.file, w.mem)
    ensures var end := Run(cfg, w, es);
            && Behind(w.file, end.file)
            && Behind(end.file, end.mem)
            && ((forall i :: 0 <= i < |es| ==> !es[i].Crash?) ==> Behind(w.mem, end.mem))
  {
    if es != [] {
      var n := |es| - 1;
      CursorsNeverMoveBack(cfg, w, es[..n]);
      StepMovesForward(cfg, Run(cfg, w, es[..n]), es[n]);
    }
  }

  /** A base stays with its cursor: only a restart, or a cycle that found the cursor unset
      (or zero) and moves it, puts another seed in its place. */
  lemma BaseStaysWithItsCursor(cfg: Config, w: World, e: Event, key: Key)
    requires Inv(w) && key in w.mem && !e.Crash?
    ensures var w' := Step(cfg, w, e);
            && key in w'.memBase
            && (w'.memBase[key] != w.memBase[key] ==>
                  && e.Advanced? && w.mem[key] == ZERO_TIME
                  && w.phase.Posting? && w.phase.key == key && w'.memBase[key] == w.phase.since)
  {
    assert CursorOk(w, key, w.memBase, w.mem[key]);
  }
}
