/** Runs over the SULO adapter and rows at or before the cursor: fetches that cut nothing off
    keep the ingest core's bargain, and what a cursor has passed is never logged. */
module SuloRuns {
  import opened Canonical
  import opened Store
  import opened WritePath
  import opened AtMostOnce
  import opened CursorMeaning
  import G = GapFree
  import L = LogMeaning
  import P = Paging
  import S = Sulo
  import V = Validator

  // ---- Fetches that cut nothing off ---------------------------------------------------------

  /** `rows` is a slice of the vendor's list, with repeats and in any order. */
  predicate ReadsSlice(list: seq<S.Row>, rows: seq<S.Row>, from: nat, to: nat) {
    from <= to <= |list|
    && (forall r :: r in rows ==> r in list[from..to])
    && (forall r :: r in list[from..to] ==> r in rows)
  }

  /** The vendor's list for `s` as query `q` sees it is what the source has after `since`. */
  ghost predicate Shows(src: G.Source, s: StreamId, q: S.Query, list: seq<S.Row>) {
    forall t :: t > q.since ==> ((s, t) in src <==> S.PassingTime(q, list, t))
  }

  ghost predicate IsCleanFetch(
    src: G.Source, s: StreamId, fetched: seq<Observation>,
    q: S.Query, list: seq<S.Row>, rows: seq<S.Row>, from: nat, to: nat)
  {
    && S.NewestFirst(q, list) && S.Distinguishable(q, list) && Shows(src, s, q, list)
    && ReadsSlice(list, rows, from, to) && S.NothingCutOff(q, list, rows, to) && S.Exact(q, rows, fetched)
  }

  /** `fetched` is what a fetch since `since` gives at `now` when its paging leaves no passing
      instant of the list behind. */
  ghost predicate CleanFetch(src: G.Source, s: StreamId, since: Time, now: Time, fetched: seq<Observation>) {
    exists q: S.Query, list: seq<S.Row>, rows: seq<S.Row>, from: nat, to: nat ::
      q.since == since && q.now == now && IsCleanFetch(src, s, fetched, q, list, rows, from, to)
  }

  /** FetchObservations returns that when its paging ends on a short page, however the list
      grew meanwhile. */
  lemma ShortPageIsClean(
    src: G.Source, s: StreamId, q: S.Query, lists: seq<seq<S.Row>>, pageSize: nat, max: int,
    rows: seq<S.Row>, requests: nat, at: seq<int>, lo: int, hi: nat, out: seq<Observation>)
    requires |lists| == P.MAX_PAGES && P.Ended(lists, pageSize, max, rows, P.ShortPage, requests, at, lo, hi)
    requires S.Exact(q, rows, out) && requests > 0
    requires var last := lists[requests - 1];
             S.NewestFirst(q, last) && S.Distinguishable(q, last) && Shows(src, s, q, last)
    ensures CleanFetch(src, s, q.since, q.now, out)
  {
    var last := lists[requests - 1];
    var from := P.ShortPageReadsATail(lists, pageSize, max, rows, requests, at, lo, hi);
    assert last[from..|last|] == last[from..];
    assert IsCleanFetch(src, s, out, q, last, rows, from, |last|);
  }

  /** It also does when it ends on a cap, if what was not read of the first list holds no
      passing instant that was not read, and the list grew by no more than was read. */
  lemma CapIsClean(
    src: G.Source, s: StreamId, q: S.Query, lists: seq<seq<S.Row>>, pageSize: nat, max: int,
    rows: seq<S.Row>, stop: P.Stop, requests: nat, at: seq<int>, lo: int, hi: nat, out: seq<Observation>)
    requires |lists| == P.MAX_PAGES && P.Ended(lists, pageSize, max, rows, stop, requests, at, lo, hi)
    requires S.Exact(q, rows, out) && S.NothingCutOff(q, lists[0], rows, hi)
    requires var last := P.LastSeen(lists, requests);
             && |last| - |lists[0]| <= |rows|
             && P.IsTail(lists[0], last)
             && S.NewestFirst(q, last) && S.Distinguishable(q, last) && Shows(src, s, q, last)
    ensures CleanFetch(src, s, q.since, q.now, out)
  {
    var last := P.LastSeen(lists, requests);
    var grown := |last| - |lists[0]|;
    var from, to := P.PagesReadASlice(lists, requests, rows, at, lo, hi);
    assert forall i :: to <= i < |last| ==> last[i] == lists[0][i - grown];
    assert IsCleanFetch(src, s, out, q, last, rows, from, to);
  }

  /** A clean fetch is a prefix, and what it returns is in the source. */
  lemma CleanFetchIsSound(src: G.Source, s: StreamId, since: Time, now: Time, fetched: seq<Observation>)
    requires CleanFetch(src, s, since, now, fetched) && since > 0
    ensures G.PrefixFetch(src, s, since, fetched)
    ensures forall o :: o in fetched ==> o.phenomenonTime > since && (s, o.phenomenonTime) in src
  {
    var q: S.Query, list: seq<S.Row>, rows: seq<S.Row>, from: nat, to: nat :|
      q.since == since && q.now == now && IsCleanFetch(src, s, fetched, q, list, rows, from, to);
    S.SliceIsPrefix(s, q, list, from, to, rows, fetched);
    forall o | o in fetched ensures o.phenomenonTime > since && (s, o.phenomenonTime) in src {
      var i :| S.First(q, rows, i) && o == S.ToObs(q, rows[i]);
      assert rows[i] in list[from..to];
      var j :| 0 <= j < |list[from..to]| && list[from..to][j] == rows[i];
      assert list[from + j] == rows[i];
    }
  }

  // ---- Gap-freedom over SULO ----------------------------------------------------------------

  /** Rows only appear, each newer than those its stream had; fetches cut no passing instant
      off; and a look-back starts at a real instant. */
  ghost predicate SuloStep(cfg: Config, w: World, e: Event, before: G.Source, after: G.Source) {
    && before <= after
    && (forall s, t, u :: (s, t) in after && (s, t) !in before && (s, u) in before ==> t > u)
    && (e.Effect? && e.a.Fetched? && PhaseOf(w, e.s).Fetching? ==>
          CleanFetch(before, e.s, PhaseOf(w, e.s).since, w.clock, e.a.rows))
    && (e.Effect? && e.a.CursorRead? ==> w.clock - cfg.lookback > 0)
  }

  ghost predicate SuloRun(cfg: Config, w: World, es: seq<Event>, src: seq<G.Source>) {
    && |src| == |es| + 1
    && forall i :: 0 <= i < |es| ==> SuloStep(cfg, Run(cfg, w, es[..i]), es[i], src[i], src[i + 1])
  }

  /** The cursor and what an open cycle is about to make of it are instants of the source. */
  ghost predicate InSource(w: World, src: G.Source, s: StreamId) {
    var ph := PhaseOf(w, s);
    && (CursorOf(w, s).Some? ==> CursorOf(w, s).value > 0 && (s, CursorOf(w, s).value) in src)
    && (ph.Fetching? ==> ph.since > 0)
    && (HasCycle(ph) && ph.cy.mode.Poll? ==> ph.cy.since > 0 && (s, MaxTime(ph.cy.batch, ph.cy.since)) in src)
  }

  lemma CursorStaysInSource(cfg: Config, w: World, s: StreamId, a: Answer, src: G.Source)
    requires InSource(w, src, s) && Progress(w, s)
    ensures var c := CursorOf(EffectStep(cfg, w, s, a), s); c.Some? ==> c.value > 0 && (s, c.value) in src
  {
    if CursorOf(Step(cfg, w, Effect(s, a)), s) != CursorOf(w, s) {
      CursorMovesOnlyInAdvance(cfg, w, s, Effect(s, a));
      G.FinishedMaxIsNewest(w, s);
    }
  }

  /** A poll cycle that has something to do was fetched, and its newest row is in the source. */
  lemma NewCycleIsInSource(cfg: Config, w: World, s: StreamId, a: Answer, src: G.Source)
    requires InSource(w, src, s)
    requires a.Fetched? && PhaseOf(w, s).Fetching? ==> CleanFetch(src, s, PhaseOf(w, s).since, w.clock, a.rows)
    requires !HasCycle(PhaseOf(w, s))
    ensures var ph := MoveOf(cfg, w, s, a).next;
            HasCycle(ph) && ph.cy.mode.Poll? ==> ph.cy.since > 0 && (s, MaxTime(ph.cy.batch, ph.cy.since)) in src
  {
    var ph := MoveOf(cfg, w, s, a).next;
    if HasCycle(ph) && ph.cy.mode.Poll? {
      CyclesComeFromStart(cfg, w, s, a);
      var since, rows := PhaseOf(w, s).since, a.rows;
      CleanFetchIsSound(src, s, since, w.clock, rows);
      BatchIsNotEmpty(cfg, since, rows, w.clock);
      G.MaxTimeIsMax(rows, since);
      assert rows[0] in rows;
      var i :| 0 <= i < |rows| && rows[i].phenomenonTime == MaxTime(rows, since);
      assert rows[i] in rows;
    }
  }

  lemma BatchIsNotEmpty(cfg: Config, since: Time, rows: seq<Observation>, clock: Time)
    requires HasCycle(Start(cfg, Poll, since, rows, clock))
    ensures rows != []
  {
  }

  lemma EffectStaysInSource(cfg: Config, w: World, s: StreamId, a: Answer, src: G.Source)
    requires InSource(w, src, s) && Progress(w, s)
    requires a.Fetched? && PhaseOf(w, s).Fetching? ==> CleanFetch(src, s, PhaseOf(w, s).since, w.clock, a.rows)
    requires a.CursorRead? ==> w.clock - cfg.lookback > 0
    ensures InSource(EffectStep(cfg, w, s, a), src, s)
  {
    CursorStaysInSource(cfg, w, s, a, src);
    EffectOnPhases(cfg, w, s, a);
    G.CycleKeepsBatch(cfg, w, s, a);
    if !HasCycle(PhaseOf(w, s)) {
      NewCycleIsInSource(cfg, w, s, a, src);
    }
  }

  lemma OthersStayInSource(cfg: Config, w: World, o: StreamId, a: Answer, src: G.Source, s: StreamId)
    requires o != s && InSource(w, src, s)
    ensures InSource(EffectStep(cfg, w, o, a), src, s)
  {
    EffectOnPhases(cfg, w, o, a);
    G.DeedOnStream(cfg, w, o, MoveOf(cfg, w, o, a).does, s);
  }

  ghost predicate SuloInv(w: World, src: G.Source) {
    ProgressInv(w) && forall s :: InSource(w, src, s)
  }

  lemma StepKeepsSuloInv(cfg: Config, w: World, e: Event, before: G.Source, after: G.Source)
    requires SuloInv(w, before) && SuloStep(cfg, w, e, before, after)
    ensures SuloInv(Step(cfg, w, e), before)
  {
    StepKeepsProgress(cfg, w, e);
    forall s ensures InSource(Step(cfg, w, e), before, s) {
      assert Progress(w, s) && InSource(w, before, s);
      if e.Effect? && e.s == s {
        EffectStaysInSource(cfg, w, s, e.a, before);
      } else if e.Effect? {
        OthersStayInSource(cfg, w, e.s, e.a, before, s);
      }
    }
  }

  lemma SuloStepIsSteady(cfg: Config, w: World, e: Event, before: G.Source, after: G.Source)
    requires SuloInv(w, before) && SuloStep(cfg, w, e, before, after)
    ensures G.SteadyStep(cfg, w, e, before, after) && SuloInv(Step(cfg, w, e), after)
  {
    StepKeepsSuloInv(cfg, w, e, before, after);
    var w' := Step(cfg, w, e);
    forall s, t | (s, t) in after && (s, t) !in before ensures G.Beyond(w', s, t) && G.BehindBatch(w', s, t) {
      assert InSource(w', before, s);
    }
    if e.Effect? && e.a.Fetched? && PhaseOf(w, e.s).Fetching? {
      assert InSource(w, before, e.s);
      CleanFetchIsSound(before, e.s, PhaseOf(w, e.s).since, w.clock, e.a.rows);
    }
    forall s ensures InSource(w', after, s) {
      assert InSource(w', before, s);
    }
  }

  lemma {:induction false} SuloRunIsSteady(cfg: Config, w: World, es: seq<Event>, src: seq<G.Source>)
    requires Fresh(w) && SuloRun(cfg, w, es, src)
    ensures G.SteadyRun(cfg, w, es, src) && SuloInv(Run(cfg, w, es), src[|es|])
  {
    if es == [] {
      FreshProgress(w);
      forall s ensures InSource(w, src[0], s) {}
    } else {
      var n := |es| - 1;
      assert forall i :: 0 <= i <= n ==> es[..n][..i] == es[..i];
      SuloRunIsSteady(cfg, w, es[..n], src[..n + 1]);
      SuloStepIsSteady(cfg, Run(cfg, w, es[..n]), es[n], src[n], src[n + 1]);
      forall i | 0 <= i < |es| ensures G.SteadyStep(cfg, Run(cfg, w, es[..i]), es[i], src[i], src[i + 1]) {
        if i < n { assert es[..n][..i] == es[..i] && es[..n][i] == es[i]; }
      }
    }
  }

  /** Gap-freedom over SULO: while no fetch cuts a passing instant off and rows arrive newest
      last, every instant of the source between a stream's seed and its cursor was logged,
      rejected or refused for good, whatever failed, crashed or was purged. */
  lemma NoLevelIsLost(cfg: Config, w: World, es: seq<Event>, src: seq<G.Source>, s: StreamId, t: Time)
    requires Fresh(w) && SuloRun(cfg, w, es, src)
    requires CursorOf(Run(cfg, w, es), s).Some? && (s, t) in src[|es|]
    ensures var end := Run(cfg, w, es);
            && s in end.hist.base
            && (end.hist.base[s] < t <= CursorOf(end, s).value ==> Handled(end, s, t))
  {
    SuloRunIsSteady(cfg, w, es, src);
    G.SteadyRunIsOrdered(cfg, w, es, src);
    G.NoGap(cfg, w, es, src, s);
  }

  // ---- Rows at or before the cursor -------------------------------------------------------------

  /** The stream's cursor is at least `c`, and no open poll cycle has a row at or before it
      to write. */
  predicate Past(w: World, s: StreamId, c: Time) {
    var ph := PhaseOf(w, s);
    && CursorOf(w, s).Some? && CursorOf(w, s).value >= c
    && (ph.Fetching? ==> ph.since >= c)
    && (HasCycle(ph) ==> forall o :: o in ph.cy.todo ==> o.phenomenonTime > c)
  }

  lemma FetchStaysPast(cfg: Config, w: World, s: StreamId, a: Answer, c: Time)
    requires Past(w, s, c) && c > 0 && PhaseOf(w, s).Fetching?
    ensures var ph := MoveOf(cfg, w, s, a).next; HasCycle(ph) ==> forall o :: o in ph.cy.todo ==> o.phenomenonTime > c
  {
    if a.Fetched? {
      V.KeptMembers(a.rows, PhaseOf(w, s).since, w.clock, cfg.skew);
    }
  }

  /** A cycle's list of what to do only loses its head. */
  lemma TodoOnlyShrinks(cfg: Config, w: World, s: StreamId, a: Answer)
    requires HasCycle(PhaseOf(w, s)) && HasCycle(MoveOf(cfg, w, s, a).next)
    ensures var todo, todo' := PhaseOf(w, s).cy.todo, MoveOf(cfg, w, s, a).next.cy.todo;
            todo' == todo || (todo != [] && todo' == todo[1..])
  {
  }

  lemma CycleStaysPast(cfg: Config, w: World, s: StreamId, a: Answer, c: Time)
    requires Past(w, s, c) && HasCycle(PhaseOf(w, s)) && HasCycle(MoveOf(cfg, w, s, a).next)
    ensures forall o :: o in MoveOf(cfg, w, s, a).next.cy.todo ==> o.phenomenonTime > c
  {
    var todo, todo' := PhaseOf(w, s).cy.todo, MoveOf(cfg, w, s, a).next.cy.todo;
    TodoOnlyShrinks(cfg, w, s, a);
    assert forall o :: o in todo' ==> o in todo;
  }

  lemma EffectStaysPast(cfg: Config, w: World, s: StreamId, a: Answer, c: Time)
    requires Past(w, s, c) && c > 0 && !a.Pushed?
    ensures var ph := MoveOf(cfg, w, s, a).next;
            && (ph.Fetching? ==> ph.since >= c)
            && (HasCycle(ph) ==> forall o :: o in ph.cy.todo ==> o.phenomenonTime > c)
  {
    G.CycleKeepsBatch(cfg, w, s, a);
    if PhaseOf(w, s).Fetching? {
      FetchStaysPast(cfg, w, s, a, c);
    } else if HasCycle(PhaseOf(w, s)) && HasCycle(MoveOf(cfg, w, s, a).next) {
      CycleStaysPast(cfg, w, s, a, c);
    }
  }

  lemma DeedLogsItsHead(cfg: Config, w: World, s: StreamId, d: Deed, k: LogKey)
    requires k !in w.hist.logged
    ensures k in Perform(cfg, w, s, d).hist.logged ==>
              d.Insert? && exists o :: o in d.cy.todo && k == LogKey(s, o.phenomenonTime)
  {
    if d.Insert? && d.cy.todo != [] {
      assert d.cy.todo[0] in d.cy.todo;
    }
  }

  /** Only rows that are still to do are logged. */
  lemma LogsOnlyItsTodo(cfg: Config, w: World, s: StreamId, a: Answer, c: Time, k: LogKey)
    requires Past(w, s, c) && k.time <= c && k.stream == s && k !in w.hist.logged
    ensures k !in EffectStep(cfg, w, s, a).hist.logged
  {
    DeedLogsItsHead(cfg, w, s, MoveOf(cfg, w, s, a).does, k);
    L.InsertIsRecording(cfg, w, s, a);
  }

  lemma OthersLogTheirOwn(cfg: Config, w: World, o: StreamId, a: Answer, k: LogKey)
    requires k.stream != o && k !in w.hist.logged
    ensures k !in EffectStep(cfg, w, o, a).hist.logged
  {
  }

  lemma StepStaysPast(cfg: Config, w: World, e: Event, s: StreamId, c: Time, t: Time)
    requires Past(w, s, c) && 0 < t <= c && LogKey(s, t) !in w.hist.logged
    requires !(e.Effect? && e.s == s && e.a.Pushed?)
    ensures Past(Step(cfg, w, e), s, c) && LogKey(s, t) !in Step(cfg, w, e).hist.logged
  {
    if CursorOf(Step(cfg, w, e), s) != CursorOf(w, s) {
      CursorMovesOnlyInAdvance(cfg, w, s, e);
    }
    if e.Effect? {
      EffectOnPhases(cfg, w, e.s, e.a);
      if e.s == s {
        EffectStaysPast(cfg, w, s, e.a, c);
        LogsOnlyItsTodo(cfg, w, s, e.a, c, LogKey(s, t));
      } else {
        OthersLogTheirOwn(cfg, w, e.s, e.a, LogKey(s, t));
      }
    }
  }

  /** A row that a poll cursor has passed unlogged stays unlogged in every continuation
      without a push for its stream: whatever a cut-off batch lost is lost. */
  lemma {:induction false} PassedRowsStayUnlogged(cfg: Config, w: World, es: seq<Event>, s: StreamId, c: Time, t: Time)
    requires Past(w, s, c) && 0 < t <= c && LogKey(s, t) !in w.hist.logged
    requires forall i :: 0 <= i < |es| ==> !(es[i].Effect? && es[i].s == s && es[i].a.Pushed?)
    ensures Past(Run(cfg, w, es), s, c) && LogKey(s, t) !in Run(cfg, w, es).hist.logged
  {
    if es != [] {
      var n := |es| - 1;
      assert forall i :: 0 <= i < n ==> es[..n][i] == es[i];
      PassedRowsStayUnlogged(cfg, w, es[..n], s, c, t);
      StepStaysPast(cfg, Run(cfg, w, es[..n]), es[n], s, c, t);
    }
  }

  /** The end of a cycle leaves its stream past the cycle's maximum. */
  lemma AdvanceIsPast(cfg: Config, w: World, s: StreamId, a: Answer)
    requires PhaseOf(w, s).Advancing? && s in w.db.rows
    requires CursorOf(w, s).Some? ==> CursorOf(w, s).value < PhaseOf(w, s).cy.max
    requires a.AdvanceDone? || (a.AdvanceFailed? && a.applied)
    ensures Past(Step(cfg, w, Effect(s, a)), s, PhaseOf(w, s).cy.max)
    ensures Step(cfg, w, Effect(s, a)).hist.logged == w.hist.logged
  {
  }

  /** A batch's maximum is not older than what the limit cut off behind it. */
  lemma MaxCoversCutOff(w: World, s: StreamId, q: S.Query, list: seq<S.Row>, k: nat, j: nat)
    requires Progress(w, s) && PhaseOf(w, s).Advancing?
    requires k <= |list| && S.NewestFirst(q, list)
    requires S.Exact(q, list[..k], PhaseOf(w, s).cy.batch) && S.CutOff(q, list, k, j)
    ensures list[j].time.value <= PhaseOf(w, s).cy.max
  {
    var cy := PhaseOf(w, s).cy;
    var m :| 0 <= m < |cy.batch| && cy.batch[m].phenomenonTime == cy.max;
    assert cy.batch[m] in cy.batch;
    var f :| S.First(q, list[..k], f) && cy.batch[m] == S.ToObs(q, list[..k][f]);
    assert list[f] == list[..k][f];
  }

  /** The instants that a limit cut off, once the cursor has moved over what was left: the
      cycle ends past them, and they are never logged. */
  lemma CutOffIsNeverLogged(
    cfg: Config, w: World, a: Answer, es: seq<Event>, s: StreamId, q: S.Query, list: seq<S.Row>, k: nat, j: nat)
    requires ProgressInv(w) && PhaseOf(w, s).Advancing? && s in w.db.rows
    requires CursorOf(w, s).Some? ==> CursorOf(w, s).value < PhaseOf(w, s).cy.max
    requires a.AdvanceDone? || (a.AdvanceFailed? && a.applied)
    requires k <= |list| && S.NewestFirst(q, list) && q.since > 0
    requires S.Exact(q, list[..k], PhaseOf(w, s).cy.batch)
    requires S.CutOff(q, list, k, j) && LogKey(s, list[j].time.value) !in w.hist.logged
    requires forall i :: 0 <= i < |es| ==> !(es[i].Effect? && es[i].s == s && es[i].a.Pushed?)
    ensures LogKey(s, list[j].time.value) !in Run(cfg, Step(cfg, w, Effect(s, a)), es).hist.logged
  {
    assert Progress(w, s);
    MaxCoversCutOff(w, s, q, list, k, j);
    AdvanceIsPast(cfg, w, s, a);
    PassedRowsStayUnlogged(cfg, Step(cfg, w, Effect(s, a)), es, s, PhaseOf(w, s).cy.max, list[j].time.value);
  }

  /** However many rows a batch has: when the cursor moves over one that is dated after the
      clock, it moves at least that far, and every later batch dated up to there is rejected
      to the last row. */
  lemma AnyFutureRowPoisonsTheStream(
    cfg: Config, w: World, es: seq<Event>, e: Event, s: StreamId, o: Observation, later: seq<Observation>, now: Time)
    requires Fresh(w) && o.phenomenonTime > 0
    requires CursorOf(Run(cfg, w, es + [e]), s) != CursorOf(Run(cfg, w, es), s)
    requires HasCycle(PhaseOf(Run(cfg, w, es), s)) && o in PhaseOf(Run(cfg, w, es), s).cy.batch
    requires forall x :: x in later ==> x.phenomenonTime <= o.phenomenonTime
    ensures var c := CursorOf(Run(cfg, w, es + [e]), s);
            c.Some? && c.value >= o.phenomenonTime && V.Kept(later, c.value, now, cfg.skew) == []
  {
    CoveredMeansHandled(cfg, w, es, e, s);
    V.LateBatchIsRejected(later, CursorOf(Run(cfg, w, es + [e]), s).value, now, cfg.skew);
  }
}
