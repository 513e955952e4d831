/** What the Collaborall reader's cursors do not promise (runOnce,
    cmd/collaborall-reader/run.go): rows between a stream's first seed and the seed its
    cursor was set from, and whatever lies behind a page of undecodable rows. */
module ReaderGaps {
  import opened Canonical
  import opened Chunking
  import opened Delivery

  // ---- The first seed -----------------------------------------------------------------------

  /** The event starts a cycle of `key` that finds no cursor and looks back from now. */
  predicate IsSeeded(w: World, e: Event, key: Key) {
    e.Begun? && e.key == key && w.phase.Idle? && Get(w.mem, key) == ZERO_TIME
  }

  /** The seed of the first such cycle, whatever became of it. */
  function FirstSeed(cfg: Config, w: World, es: seq<Event>, key: Key): Option<Time> {
    if es == [] then None
    else
      var before, e := es[..|es| - 1], es[|es| - 1];
      var first := FirstSeed(cfg, w, before, key);
      if first.None? && IsSeeded(Run(cfg, w, before), e, key) then Some(e.now - cfg.lookback) else first
  }

  function SeededCycles(cfg: Config, w: World, es: seq<Event>, key: Key): nat {
    if es == [] then 0
    else
      var before, e := es[..|es| - 1], es[|es| - 1];
      SeededCycles(cfg, w, before, key) + if IsSeeded(Run(cfg, w, before), e, key) then 1 else 0
  }

  lemma StepOnSeeds(cfg: Config, w: World, e: Event, key: Key)
    ensures forall x :: (key, x) in Step(cfg, w, e).seeds ==>
              (key, x) in w.seeds || (IsSeeded(w, e, key) && x == e.now - cfg.lookback)
  {
  }

  /** Every seed a cursor can begin with is the first one, if there was only one. */
  lemma {:induction false} OnlySeedIsFirst(cfg: Config, w: World, es: seq<Event>, key: Key)
    requires Fresh(w)
    ensures FirstSeed(cfg, w, es, key).None? <==> SeededCycles(cfg, w, es, key) == 0
    ensures forall x :: (key, x) in Run(cfg, w, es).seeds ==>
              && SeededCycles(cfg, w, es, key) > 0
              && (SeededCycles(cfg, w, es, key) == 1 ==> FirstSeed(cfg, w, es, key) == Some(x))
  {
    if es != [] {
      var n := |es| - 1;
      OnlySeedIsFirst(cfg, w, es[..n], key);
      StepOnSeeds(cfg, Run(cfg, w, es[..n]), es[n], key);
    }
  }

  /** From the first seed on nothing is lost, if only one cycle of the stream ever had to
      look back: it got its cursor into the file, and no restart forgot it. */
  lemma FirstSeedIsSafeWhenSeededOnce(cfg: Config, w: World, es: seq<Event>, key: Key)
    requires Fresh(w) && InOrderRun(cfg, w, es)
    requires key in Run(cfg, w, es).file && SeededCycles(cfg, w, es, key) <= 1
    ensures var first := FirstSeed(cfg, w, es, key);
            first.Some? && Delivered(Run(cfg, w, es), key, first.value, Run(cfg, w, es).file[key])
  {
    NothingBelowTheFileCursorIsLost(cfg, w, es, key);
    OnlySeedIsFirst(cfg, w, es, key);
  }

  lemma RunSix(cfg: Config, w: World, es: seq<Event>)
    requires |es| == 6
    ensures Run(cfg, w, es) == Step(cfg, Run(cfg, w, es[..5]), es[5])
    ensures Run(cfg, w, es[..5]) == Step(cfg, Run(cfg, w, es[..4]), es[4])
    ensures Run(cfg, w, es[..4]) == Step(cfg, Run(cfg, w, es[..3]), es[3])
    ensures Run(cfg, w, es[..3]) == Step(cfg, Run(cfg, w, es[..2]), es[2])
    ensures Run(cfg, w, es[..2]) == Step(cfg, Run(cfg, w, es[..1]), es[1])
    ensures Run(cfg, w, es[..1]) == Step(cfg, w, es[0])
  {
    assert es[..5][..4] == es[..4] && es[..4][..3] == es[..3] && es[..3][..2] == es[..2];
    assert es[..2][..1] == es[..1] && es[..1][..0] == [];
  }

  /** The newest cycle's look-back starts later than the one that failed. */
  function LostRun(): seq<Event> {
    [Begun(7, 100, true), PostFailed, Arrived(7, RowAt(105)), Begun(7, 110, true), Posted(1), Advanced(true)]
  }

  function RowAt(t: Time): Row {
    Readable(Observation("1", "level", t, t, Number(0.0), None, ""))
  }

  function BeforeLostRun(): World {
    World(map[7 := [RowAt(91)]], map[], map[], {}, {}, map[], map[], Idle)
  }

  /** The first cycle looks back to 90, fetches the row at 91 and fails to post it. */
  lemma FirstCycleFails()
    ensures var cfg, w := Config(10, 100), BeforeLostRun();
            Step(cfg, Step(cfg, Step(cfg, w, LostRun()[0]), LostRun()[1]), LostRun()[2]) ==
            w.(seeds := {(7, 90)}, source := map[7 := [RowAt(91), RowAt(105)]])
    ensures var cfg, w := Config(10, 100), BeforeLostRun();
            Step(cfg, Step(cfg, w, LostRun()[0]), LostRun()[1]).source == w.source
  {
    var cfg, w := Config(10, 100), BeforeLostRun();
    assert After([RowAt(91)], 90) == [RowAt(91)];
    assert Decoded([RowAt(91)]) == [RowAt(91).o];
    assert Step(cfg, w, LostRun()[0]) == w.(phase := Posting(7, 90, [RowAt(91).o], 0), seeds := {(7, 90)});
    assert [RowAt(91)] + [RowAt(105)] == [RowAt(91), RowAt(105)];
  }

  lemma LostRunEnds()
    ensures var end := Run(Config(10, 100), BeforeLostRun(), LostRun());
            && end.file == map[7 := 105] && end.source == map[7 := [RowAt(91), RowAt(105)]]
            && end.acked == {(7, 105)}
  {
    var cfg, w, es := Config(10, 100), BeforeLostRun(), LostRun();
    RunSix(cfg, w, es);
    FirstCycleFails();
    SecondCycle(Run(cfg, w, es[..3]));
  }

  lemma LostRunIsInOrder()
    ensures InOrderRun(Config(10, 100), BeforeLostRun(), LostRun())
  {
    var cfg, w, es := Config(10, 100), BeforeLostRun(), LostRun();
    RunSix(cfg, w, es);
    FirstCycleFails();
    InOrderSix(cfg, w, es);
  }

  /** A failed first post and the next look-back lose a row for good. */
  lemma FirstSeedLosesARow()
    ensures var cfg, w := Config(10, 100), BeforeLostRun();
            var end := Run(cfg, w, LostRun());
            && Fresh(w) && InOrderRun(cfg, w, LostRun())
            && FirstSeed(cfg, w, LostRun(), 7) == Some(90)
            && end.file == map[7 := 105] && end.source == map[7 := [RowAt(91), RowAt(105)]]
            && (7, 91) !in end.acked && !Delivered(end, 7, 90, 105)
  {
    var cfg, w, es := Config(10, 100), BeforeLostRun(), LostRun();
    LostRunEnds();
    LostRunIsInOrder();
    FirstSeedStays(cfg, w, es, 7, 90);
    var rows := Run(cfg, w, es).source[7];
    assert rows[0].Readable? && TimeOf(rows[0]) == 91;
  }

  /** The cycle that looks back from 110 fetches, posts and covers the row at 105 only. */
  lemma SecondCycle(w: World)
    requires w.source == map[7 := [RowAt(91), RowAt(105)]] && w.mem == map[] && w.phase == Idle
    requires w.acked == {}
    ensures var cfg := Config(10, 100);
            var end := Step(cfg, Step(cfg, Step(cfg, w, Begun(7, 110, true)), Posted(1)), Advanced(true));
            end.file == map[7 := 105] && end.acked == {(7, 105)} && end.source == w.source
  {
    var rows := [RowAt(91), RowAt(105)];
    assert rows[1..] == [RowAt(105)] && [RowAt(105)][1..] == [];
    assert After([RowAt(105)], 100) == [RowAt(105)];
    assert After(rows, 100) == [RowAt(105)];
    assert Decoded([RowAt(105)]) == [RowAt(105).o];
  }

  /** Once seeded, the first seed is what it was. */
  lemma FirstSeedStays(cfg: Config, w: World, es: seq<Event>, key: Key, seed: Time)
    requires es != [] && IsSeeded(w, es[0], key) && seed == es[0].now - cfg.lookback
    ensures FirstSeed(cfg, w, es, key) == Some(seed)
    decreases |es|
  {
    if |es| == 1 {
      assert es[..0] == [];
    } else {
      FirstSeedStays(cfg, w, es[..|es| - 1], key, seed);
    }
  }

  lemma InOrderSix(cfg: Config, w: World, es: seq<Event>)
    requires |es| == 6 && forall i :: 0 <= i < 6 && i != 2 ==> !es[i].Arrived?
    requires InOrder(Run(cfg, w, es[..2]), es[2])
    ensures InOrderRun(cfg, w, es)
  {
  }

  // ---- Where a base comes from ------------------------------------------------------------------

  predicate BasesMatch(w: World) {
    w.mem.Keys == w.memBase.Keys && w.file.Keys == w.fileBase.Keys
  }

  lemma StepMatchesBases(cfg: Config, w: World, e: Event)
    requires BasesMatch(w)
    ensures BasesMatch(Step(cfg, w, e))
  {
  }

  lemma {:induction false} BasesMatchCursors(cfg: Config, w: World, es: seq<Event>)
    requires Fresh(w)
    ensures BasesMatch(Run(cfg, w, es))
  {
    if es != [] {
      BasesMatchCursors(cfg, w, es[..|es| - 1]);
      StepMatchesBases(cfg, Run(cfg, w, es[..|es| - 1]), es[|es| - 1]);
    }
  }

  /** The base of a cursor is the `since` of the cycle that set it when it was unset (or
      zero): event `n` of the run is that cycle's move. */
  lemma {:induction false} BaseHasItsCycle(cfg: Config, w: World, es: seq<Event>, key: Key, onDisk: bool) returns (n: nat)
    requires Fresh(w)
    requires key in if onDisk then Run(cfg, w, es).fileBase else Run(cfg, w, es).memBase
    ensures n < |es| && es[n].Advanced?
    ensures var cur := Run(cfg, w, es[..n]);
            && cur.phase.Posting? && cur.phase.key == key && Get(cur.mem, key) == ZERO_TIME
            && cur.phase.since == if onDisk then Run(cfg, w, es).fileBase[key] else Run(cfg, w, es).memBase[key]
  {
    var m := |es| - 1;
    var cur, e, end := Run(cfg, w, es[..m]), es[m], Run(cfg, w, es);
    if IsSetting(cur, e, key) && (onDisk ==> e.written) {
      n := m;
    } else {
      var fromDisk := if e.Crash? then true else onDisk && !(e.Advanced? && e.written && Moves(cur));
      assert (if fromDisk then key in cur.fileBase && cur.fileBase[key] == (if onDisk then end.fileBase[key] else end.memBase[key])
              else key in cur.memBase && cur.memBase[key] == (if onDisk then end.fileBase[key] else end.memBase[key])) by {
        BasesMatchCursors(cfg, w, es[..m]);
        OldBase(cfg, cur, e, key, onDisk);
      }
      n := BaseHasItsCycle(cfg, w, es[..m], key, fromDisk);
      assert es[..m][..n] == es[..n];
    }
  }

  /** The posted cycle is about to move its cursor. */
  predicate Moves(w: World) {
    && w.phase.Posting? && w.phase.obs != [] && w.phase.sent == |w.phase.obs|
    && (w.phase.key in w.mem ==> Newest(w.phase.obs) > w.mem[w.phase.key])
  }

  /** ... and the cursor was unset, so the cycle's look-back becomes its base. */
  predicate IsSetting(w: World, e: Event, key: Key) {
    e.Advanced? && Moves(w) && w.phase.key == key && Get(w.mem, key) == ZERO_TIME
  }

  /** Any other event takes the base from memory or from the file as it was. */
  lemma OldBase(cfg: Config, w: World, e: Event, key: Key, onDisk: bool)
    requires !(IsSetting(w, e, key) && (onDisk ==> e.written))
    requires w.mem.Keys == w.memBase.Keys
    requires key in if onDisk then Step(cfg, w, e).fileBase else Step(cfg, w, e).memBase
    ensures var w' := Step(cfg, w, e);
            var base := if onDisk then w'.fileBase[key] else w'.memBase[key];
            if e.Crash? || (onDisk && !(e.Advanced? && e.written && Moves(w)))
            then key in w.fileBase && w.fileBase[key] == base
            else key in w.memBase && w.memBase[key] == base
  {
  }

  // ---- A page of undecodable rows ---------------------------------------------------------------

  /** Behind `c` the source has a full page of undecodable rows, from place `from` on. */
  predicate Wall(rows: seq<Row>, c: Time, limit: nat, from: nat) {
    && from + limit <= |rows|
    && (forall i :: 0 <= i < from ==> TimeOf(rows[i]) <= c)
    && (forall i :: from <= i < from + limit ==> rows[i].Unreadable? && TimeOf(rows[i]) > c)
  }

  /** A cycle that starts at or before `c` decodes nothing behind it. */
  lemma FetchStopsAtWall(rows: seq<Row>, c: Time, limit: nat, from: nat, since: Time)
    requires Ordered(rows) && Wall(rows, c, limit, from)
    requires since != ZERO_TIME && since <= c
    ensures var obs := Fetch(rows, since, limit); obs != [] ==> since < Newest(obs) <= c
  {
    if Fetch(rows, since, limit) != [] {
      FetchCovers(rows, since, limit);
      var page := Page(rows, since, limit);
      var start := PageIsASlice(rows, since, limit);
      var n := NewestOnPage(page);
      assert page[n] == rows[start + n];
      assert start <= from by {
        if limit > 0 { assert Wanted(rows[from], since); }
      }
    }
  }

  /** Every cursor of the stream is set and at most `c`, and so is what is being posted. */
  predicate AtWall(cfg: Config, w: World, key: Key, c: Time, from: nat) {
    && key in w.source && Ordered(w.source[key]) && Wall(w.source[key], c, cfg.pageLimit, from)
    && key in w.mem && 0 < w.mem[key] <= c
    && key in w.file && 0 < w.file[key] <= c
    && (w.phase.Posting? && w.phase.key == key ==> w.phase.obs != [] && 0 < Newest(w.phase.obs) <= c)
  }

  lemma ArrivalKeepsWall(cfg: Config, w: World, e: Event, key: Key, c: Time, from: nat)
    requires AtWall(cfg, w, key, c, from) && e.Arrived? && InOrder(w, e)
    ensures AtWall(cfg, Step(cfg, w, e), key, c, from)
  {
  }

  lemma StepStaysAtWall(cfg: Config, w: World, e: Event, key: Key, c: Time, from: nat)
    requires AtWall(cfg, w, key, c, from) && InOrder(w, e)
    ensures AtWall(cfg, Step(cfg, w, e), key, c, from)
  {
    match e {
      case Begun(_, now, _) => FetchStopsAtWall(w.source[key], c, cfg.pageLimit, from, w.mem[key]);
      case Arrived(_, _) => ArrivalKeepsWall(cfg, w, e, key, c, from);
      case _ =>
    }
  }

  lemma {:induction false} RunStaysAtWall(cfg: Config, w: World, es: seq<Event>, key: Key, c: Time, from: nat)
    requires AtWall(cfg, w, key, c, from) && InOrderRun(cfg, w, es)
    ensures AtWall(cfg, Run(cfg, w, es), key, c, from)
  {
    if es != [] {
      var n := |es| - 1;
      assert forall i :: 0 <= i <= n ==> es[..n][..i] == es[..i];
      assert forall i :: 0 <= i < n ==> es[..n][i] == es[i];
      RunStaysAtWall(cfg, w, es[..n], key, c, from);
      StepStaysAtWall(cfg, Run(cfg, w, es[..n]), es[n], key, c, from);
    }
  }

  /** A stream whose cursor, in memory and on disk, stands before a full page of undecodable
      rows never moves again: not by any number of cycles, arrivals, failures or restarts. */
  lemma UndecodablePageStopsTheStream(cfg: Config, w: World, es: seq<Event>, key: Key, c: Time, from: nat)
    requires AtWall(cfg, w, key, c, from) && InOrderRun(cfg, w, es)
    requires Behind(w.file, w.mem) && w.mem[key] == c && w.file[key] == c
    ensures key in Run(cfg, w, es).mem && Run(cfg, w, es).mem[key] == c
    ensures key in Run(cfg, w, es).file && Run(cfg, w, es).file[key] == c
  {
    RunStaysAtWall(cfg, w, es, key, c, from);
    CursorsNeverMoveBack(cfg, w, es);
  }

  /** No cursor of the stream is behind `c`. */
  predicate NotPast(w: World, key: Key, c: Time) {
    (key in w.mem ==> w.mem[key] <= c) && (key in w.file ==> w.file[key] <= c)
  }

  /** The events that carry a stream without a cursor past `c`: a new row arrives, and the
      next look-back starts just before it. */
  function PassingRun(cfg: Config, key: Key, t: Time): seq<Event> {
    [Arrived(key, RowAt(t)), Begun(key, t - 1 + cfg.lookback, true), Posted(1), Advanced(true)]
  }

  /** An instant after `c`, after Go's zero time, and well after every row. */
  function Late(rows: seq<Row>, c: Time): (t: Time)
    ensures t > c && t > 1
    ensures rows != [] ==> t > TimeOf(rows[|rows| - 1]) + 1
  {
    var m := Max(c, 0);
    (if rows == [] then m else Max(m, TimeOf(rows[|rows| - 1]))) + 2
  }

  /** Only the last row is after `since`. */
  lemma {:induction false} AfterTheLast(rows: seq<Row>, row: Row, since: Time)
    requires Wanted(row, since) && forall i :: 0 <= i < |rows| ==> !Wanted(rows[i], since)
    ensures After(rows + [row], since) == [row]
  {
    if rows == [] {
      assert [row][1..] == [] && rows + [row] == [row];
    } else {
      assert (rows + [row])[1..] == rows[1..] + [row];
      AfterTheLast(rows[1..], row, since);
    }
  }

  lemma FetchOnlyTheLast(rows: seq<Row>, t: Time, limit: nat)
    requires Ordered(rows) && limit > 0 && t > 1
    requires rows != [] ==> t > TimeOf(rows[|rows| - 1]) + 1
    ensures Fetch(rows + [RowAt(t)], t - 1, limit) == [RowAt(t).o]
  {
    AfterTheLast(rows, RowAt(t), t - 1);
    assert [RowAt(t)][1..] == [];
    assert Decoded([RowAt(t)]) == [RowAt(t).o];
  }

  lemma RunFour(cfg: Config, w: World, a: Event, b: Event, c: Event, d: Event)
    ensures Run(cfg, w, [a, b, c, d]) == Step(cfg, Step(cfg, Step(cfg, Step(cfg, w, a), b), c), d)
  {
    var es := [a, b, c, d];
    assert es[..3][..2] == es[..2] && es[..2][..1] == es[..1] && es[..1][..0] == es[..0] == [];
    assert Run(cfg, w, es[..1]) == Step(cfg, w, a);
    assert Run(cfg, w, es[..2]) == Step(cfg, Step(cfg, w, a), b);
  }

  lemma ArrivedRow(cfg: Config, w: World, key: Key, row: Row)
    requires key in w.source
    ensures Step(cfg, w, Arrived(key, row)) == w.(source := w.source[key := w.source[key] + [row]])
  {
  }

  /** A look-back that starts just before a new row fetches it, and the cursor follows. */
  lemma LookBackMoves(cfg: Config, w: World, key: Key, t: Time)
    requires w.phase.Idle? && Get(w.mem, key) == ZERO_TIME && cfg.pageLimit > 0 && t > 1
    requires key in w.source && w.source[key] != [] && Fetch(w.source[key], t - 1, cfg.pageLimit) == [RowAt(t).o]
    ensures var w' := Step(cfg, Step(cfg, Step(cfg, w, Begun(key, t - 1 + cfg.lookback, true)), Posted(1)), Advanced(true));
            key in w'.mem && w'.mem[key] == t && w'.acked == w.acked + {(key, t)} && w'.source == w.source
  {
    var begun := Step(cfg, w, Begun(key, t - 1 + cfg.lookback, true));
    assert begun.phase == Posting(key, t - 1, [RowAt(t).o], 0) && begun.mem == w.mem;
    var posted := Step(cfg, begun, Posted(1));
    assert posted.phase == Posting(key, t - 1, [RowAt(t).o], 1) && posted.mem == w.mem;
    assert Newest([RowAt(t).o]) == t;
  }

  lemma PassingRunIsInOrder(cfg: Config, w: World, key: Key, t: Time)
    requires key in w.source && w.source[key] != [] ==> t >= TimeOf(w.source[key][|w.source[key]| - 1])
    ensures InOrderRun(cfg, w, PassingRun(cfg, key, t))
  {
    var es := PassingRun(cfg, key, t);
    forall i | 0 <= i < |es| ensures InOrder(Run(cfg, w, es[..i]), es[i]) {
      if i == 0 { assert es[..0] == []; }
    }
  }

  /** What PassingRun does when `t` is well after every row. */
  lemma PassingRunEnds(cfg: Config, w: World, key: Key, t: Time)
    requires w.phase.Idle? && Get(w.mem, key) == ZERO_TIME && cfg.pageLimit > 0 && t > 1
    requires key in w.source && Ordered(w.source[key])
    requires w.source[key] != [] ==> t > TimeOf(w.source[key][|w.source[key]| - 1]) + 1
    ensures var end := Run(cfg, w, PassingRun(cfg, key, t));
            && key in end.mem && end.mem[key] == t
            && end.source == w.source[key := w.source[key] + [RowAt(t)]]
            && end.acked == w.acked + {(key, t)}
  {
    FetchOnlyTheLast(w.source[key], t, cfg.pageLimit);
    ArrivedRow(cfg, w, key, RowAt(t));
    LookBackMoves(cfg, w.(source := w.source[key := w.source[key] + [RowAt(t)]]), key, t);
    RunFour(cfg, w, Arrived(key, RowAt(t)), Begun(key, t - 1 + cfg.lookback, true), Posted(1), Advanced(true));
  }

  /** The row that was the newest, at `t`, is skipped if it was not acknowledged. */
  lemma LookBackSkips(cfg: Config, w: World, key: Key, t: Time, seed: Time)
    requires w.phase.Idle? && Get(w.mem, key) == ZERO_TIME && cfg.pageLimit > 0 && t > 1 && seed < t
    requires key in w.source && Ordered(w.source[key]) && w.source[key] != []
    requires w.source[key][|w.source[key]| - 1] == RowAt(t) && forall p :: p in w.acked ==> p.1 < t
    ensures InOrderRun(cfg, w, PassingRun(cfg, key, t + 2))
    ensures !NothingSkipped(Run(cfg, w, PassingRun(cfg, key, t + 2)), key, seed)
  {
    PassingRunIsInOrder(cfg, w, key, t + 2);
    PassingRunEnds(cfg, w, key, t + 2);
    var end := Run(cfg, w, PassingRun(cfg, key, t + 2));
    assert end.source[key][|w.source[key]| - 1] == RowAt(t);
    assert (key, t) !in end.acked;
  }

  lemma {:induction false} RunAppend(cfg: Config, w: World, es: seq<Event>, more: seq<Event>)
    ensures Run(cfg, w, es + more) == Run(cfg, Run(cfg, w, es), more)
  {
    if more == [] {
      assert es + more == es;
    } else {
      var n := |more| - 1;
      RunAppend(cfg, w, es, more[..n]);
      assert (es + more)[..|es + more| - 1] == es + more[..n];
    }
  }

  lemma PrefixAfter(cfg: Config, w: World, e: Event, es: seq<Event>, i: nat)
    requires 0 < i <= |es| + 1
    ensures Run(cfg, w, ([e] + es)[..i]) == Run(cfg, Step(cfg, w, e), es[..i - 1])
  {
    assert ([e] + es)[..i] == [e] + es[..i - 1];
    assert [e][..0] == [];
    RunAppend(cfg, w, [e], es[..i - 1]);
  }

  lemma RunAfter(cfg: Config, w: World, e: Event, es: seq<Event>)
    ensures Run(cfg, w, [e] + es) == Run(cfg, Step(cfg, w, e), es)
  {
    PrefixAfter(cfg, w, e, es, |es| + 1);
    assert ([e] + es)[..|es| + 1] == [e] + es && es[..|es|] == es;
  }

  lemma InOrderAfter(cfg: Config, w: World, e: Event, es: seq<Event>)
    requires InOrder(w, e) && InOrderRun(cfg, Step(cfg, w, e), es)
    ensures InOrderRun(cfg, w, [e] + es)
  {
    var all := [e] + es;
    forall i | 0 <= i < |all| ensures InOrder(Run(cfg, w, all[..i]), all[i]) {
      if i == 0 {
        assert all[..0] == [];
      } else {
        PrefixAfter(cfg, w, e, es, i);
        assert all[i] == es[i - 1];
      }
    }
  }

  /** Without a cursor in memory, or in the file, some run passes `c`. */
  lemma SomeRunPasses(cfg: Config, w: World, key: Key, c: Time) returns (es: seq<Event>)
    requires cfg.pageLimit > 0 && key in w.source && Ordered(w.source[key])
    requires Get(w.mem, key) == ZERO_TIME || Get(w.file, key) == ZERO_TIME
    ensures InOrderRun(cfg, w, es) && !NotPast(Run(cfg, w, es), key, c)
  {
    var e := if Get(w.mem, key) == ZERO_TIME then PostFailed else Crash;
    var idle, t := Step(cfg, w, e), Late(w.source[key], c);
    var rest := PassingRun(cfg, key, t);
    PassingRunIsInOrder(cfg, idle, key, t);
    PassingRunEnds(cfg, idle, key, t);
    InOrderAfter(cfg, w, e, rest);
    RunAfter(cfg, w, e, rest);
    es := [e] + rest;
  }

  /** Before a full page of undecodable rows, no run gets a cursor past `c` if and only if
      the stream has a cursor both in memory and in the file. Without one in memory the
      next cycle looks back from its own clock, and without one in the file a restart does
      the same: both can start behind the page. */
  lemma UndecodablePageStopsIff(cfg: Config, w: World, key: Key, c: Time, from: nat)
    requires cfg.pageLimit > 0 && !(w.phase.Posting? && w.phase.key == key)
    requires key in w.source && Ordered(w.source[key]) && Wall(w.source[key], c, cfg.pageLimit, from)
    requires key in w.mem ==> 0 <= w.mem[key] <= c
    requires key in w.file ==> 0 <= w.file[key] <= c
    ensures (forall es: seq<Event> :: InOrderRun(cfg, w, es) ==> NotPast(Run(cfg, w, es), key, c)) <==>
            Get(w.mem, key) != ZERO_TIME && Get(w.file, key) != ZERO_TIME
  {
    if Get(w.mem, key) != ZERO_TIME && Get(w.file, key) != ZERO_TIME {
      forall es: seq<Event> | InOrderRun(cfg, w, es) ensures NotPast(Run(cfg, w, es), key, c) {
        RunStaysAtWall(cfg, w, es, key, c, from);
      }
    } else {
      var es := SomeRunPasses(cfg, w, key, c);
    }
  }

  /** A concrete stream without a cursor: the page blocks one cycle and not the next. */
  lemma LookBackPassesAPage()
    ensures var cfg := Config(10, 1);
            var w := World(map[7 := [Unreadable(5), RowAt(100)]], map[], map[], {}, {}, map[], map[], Idle);
            && Step(cfg, w, Begun(7, 11, true)) == w
            && Step(cfg, w, Begun(7, 20, true)).phase == Posting(7, 10, [RowAt(100).o], 0)
  {
    var rows := [Unreadable(5), RowAt(100)];
    assert rows[1..] == [RowAt(100)] && [RowAt(100)][1..] == [];
    assert After(rows, 1) == rows && Page(rows, 1, 1) == [Unreadable(5)];
    assert [Unreadable(5)][1..] == [];
    assert After(rows, 10) == [RowAt(100)];
    assert Decoded([RowAt(100)]) == [RowAt(100).o];
  }

  /** A concrete stream whose cursor never reached the file: blocked at 3, until a restart
      looks back from 20. */
  lemma RestartPassesAPage()
    ensures var cfg := Config(10, 1);
            var source := map[7 := [RowAt(3), Unreadable(5), RowAt(100)]];
            var w := World(source, map[7 := 3], map[], {(7, 3)}, {(7, 2)}, map[7 := 2], map[], Idle);
            && Step(cfg, w, Begun(7, 20, true)) == w
            && Step(cfg, Step(cfg, w, Crash), Begun(7, 20, true)).phase == Posting(7, 10, [RowAt(100).o], 0)
  {
    var rows := [RowAt(3), Unreadable(5), RowAt(100)];
    assert rows[1..] == [Unreadable(5), RowAt(100)] && rows[1..][1..] == [RowAt(100)] && [RowAt(100)][1..] == [];
    assert After([RowAt(100)], 10) == [RowAt(100)] && After(rows[1..], 10) == [RowAt(100)];
    assert After(rows, 10) == [RowAt(100)];
    assert After(rows[1..], 3) == rows[1..] && After(rows, 3) == rows[1..];
    assert Page(rows, 3, 1) == [Unreadable(5)];
    assert [Unreadable(5)][1..] == [];
    assert Decoded([RowAt(100)]) == [RowAt(100).o];
  }

  // ---- A seed for good -------------------------------------------------------------------------

  /** No readable instant between `seed` and either cursor of the stream is unacknowledged. */
  predicate NothingSkipped(w: World, key: Key, seed: Time) {
    && (key in w.mem ==> Delivered(w, key, seed, w.mem[key]))
    && (key in w.file ==> Delivered(w, key, seed, w.file[key]))
  }

  /** The stream's cursor is set, in memory and in the file. */
  predicate CursorSet(w: World, key: Key) {
    Get(w.mem, key) > ZERO_TIME && Get(w.file, key) > ZERO_TIME
  }

  lemma AdvanceSkipsNothing(w: World, written: bool, key: Key, seed: Time)
    requires Inv(w) && CursorSet(w, key) && NothingSkipped(w, key, seed)
    requires w.phase.Posting? && w.phase.sent == |w.phase.obs|
    ensures CursorSet(Advance(w, written), key) && NothingSkipped(Advance(w, written), key, seed)
  {
    var ph := w.phase;
    if ph.key == key {
      assert ph.since == w.mem[key] && Covers(w.source[key], ph.since, Newest(ph.obs), ph.obs);
    }
  }

  lemma StepSkipsNothing(cfg: Config, w: World, e: Event, key: Key, seed: Time)
    requires Inv(w) && InOrder(w, e) && CursorSet(w, key) && NothingSkipped(w, key, seed)
    ensures CursorSet(Step(cfg, w, e), key) && NothingSkipped(Step(cfg, w, e), key, seed)
  {
    assert CursorOk(w, key, w.memBase, w.mem[key]) && CursorOk(w, key, w.fileBase, w.file[key]);
    match e {
      case Advanced(written) =>
        if w.phase.Posting? && w.phase.obs != [] && w.phase.sent == |w.phase.obs| {
          AdvanceSkipsNothing(w, written, key, seed);
        }
      case _ =>
    }
  }

  lemma {:induction false} RunSkipsNothing(cfg: Config, w: World, es: seq<Event>, key: Key, seed: Time)
    requires Inv(w) && InOrderRun(cfg, w, es) && CursorSet(w, key) && NothingSkipped(w, key, seed)
    ensures CursorSet(Run(cfg, w, es), key) && NothingSkipped(Run(cfg, w, es), key, seed)
  {
    if es != [] {
      var n := |es| - 1;
      assert forall i :: 0 <= i <= n ==> es[..n][..i] == es[..i];
      assert forall i :: 0 <= i < n ==> es[..n][i] == es[i];
      RunSkipsNothing(cfg, w, es[..n], key, seed);
      RunKeepsInv(cfg, w, es[..n]);
      StepSkipsNothing(cfg, Run(cfg, w, es[..n]), es[n], key, seed);
    }
  }

  lemma {:induction false} AboveAll(acked: set<(Key, Time)>) returns (m: Time)
    ensures forall p :: p in acked ==> p.1 < m
  {
    if acked == {} {
      m := 0;
    } else {
      var p :| p in acked;
      var rest := AboveAll(acked - {p});
      m := Max(rest, p.1 + 1);
    }
  }

  /** From a stream without a cursor in memory, some run passes a row that was never
      acknowledged. */
  lemma SomeRunSkips(cfg: Config, w: World, key: Key, seed: Time) returns (es: seq<Event>)
    requires Inv(w) && w.phase.Idle? && Get(w.mem, key) == ZERO_TIME && cfg.pageLimit > 0
    ensures InOrderRun(cfg, w, es) && !NothingSkipped(Run(cfg, w, es), key, seed)
  {
    var rows := if key in w.source then w.source[key] else [];
    var m := AboveAll(w.acked);
    var t := Late(rows, Max(m, seed));
    var w1 := Step(cfg, w, Arrived(key, RowAt(t)));
    var rows1 := rows + [RowAt(t)];
    assert w1 == w.(source := w.source[key := rows1]);
    var rest := PassingRun(cfg, key, t + 2);
    assert Ordered(rows1) && rows1[|rows1| - 1] == RowAt(t);
    LookBackSkips(cfg, w1, key, t, seed);
    InOrderAfter(cfg, w, Arrived(key, RowAt(t)), rest);
    RunAfter(cfg, w, Arrived(key, RowAt(t)), rest);
    es := [Arrived(key, RowAt(t))] + rest;
  }

  /** Whatever failed so far: no continuation skips a readable row behind `seed`, if and
      only if none is skipped yet and the stream has a cursor both in memory and in the
      file. Until then a later look-back, or one after a restart, can start too late. */
  lemma SeedIsSafeIff(cfg: Config, w: World, key: Key, seed: Time)
    requires Inv(w) && cfg.pageLimit > 0
    requires key in w.mem ==> w.mem[key] >= ZERO_TIME
    requires key in w.file ==> w.file[key] >= ZERO_TIME
    ensures (forall es: seq<Event> :: InOrderRun(cfg, w, es) ==> NothingSkipped(Run(cfg, w, es), key, seed)) <==>
            NothingSkipped(w, key, seed) && CursorSet(w, key)
  {
    if NothingSkipped(w, key, seed) && CursorSet(w, key) {
      forall es: seq<Event> | InOrderRun(cfg, w, es) ensures NothingSkipped(Run(cfg, w, es), key, seed) {
        RunSkipsNothing(cfg, w, es, key, seed);
      }
    } else if CursorSet(w, key) {
      assert InOrderRun(cfg, w, []) && Run(cfg, w, []) == w;
    } else {
      var e := if Get(w.mem, key) == ZERO_TIME then PostFailed else Crash;
      StepKeepsInv(cfg, w, e);
      var es := SomeRunSkips(cfg, Step(cfg, w, e), key, seed);
      InOrderAfter(cfg, w, e, es);
      RunAfter(cfg, w, e, es);
      assert !NothingSkipped(Run(cfg, w, [e] + es), key, seed);
    }
  }
}
