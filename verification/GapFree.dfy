/** No gap below the cursor, and no cursor above the clock: what the ingest core keeps when
    the adapter keeps its side, and what one future-dated row does when it does not. */
module GapFree {
  import opened Canonical
  import opened Store
  import opened WritePath
  import opened AtMostOnce
  import opened CursorMeaning
  import V = Validator

  /** The rows a vendor has for each stream at one instant. */
  type Source = iset<(StreamId, Time)>

  /** The fetch left out nothing between `since` and the newest row it returned. */
  ghost predicate PrefixFetch(src: Source, s: StreamId, since: Time, rows: seq<Observation>) {
    forall t :: (s, t) in src && since < t <= MaxTime(rows, since) ==> HasTime(rows, t)
  }

  /** A row that appears now is newer than the stream's cursor. */
  predicate Beyond(w: World, s: StreamId, t: Time) {
    CursorOf(w, s).Some? ==> t > CursorOf(w, s).value
  }

  /** Rows appear in the source only beyond the cursor, and a seed is a real instant. */
  ghost predicate ArrivalStep(cfg: Config, w: World, e: Event, before: Source, after: Source) {
    && (forall s, t :: (s, t) in after && (s, t) !in before ==> Beyond(Step(cfg, w, e), s, t))
    && (e.Effect? && e.a.CursorRead? ==> w.clock - cfg.lookback >= 0)
  }

  /** The event makes the cursor of its stream move. */
  predicate MovesCursor(w: World, e: Event) {
    e.Effect? && PhaseOf(w, e.s).Advancing? && (e.a.AdvanceDone? || (e.a.AdvanceFailed? && e.a.applied))
  }

  /** Every instant that the source has at this moment, and that the move passes, was in the
      cycle's batch or has been handled otherwise. */
  ghost predicate Complete(w: World, src: Source, s: StreamId, cy: Cycle) {
    forall t :: (s, t) in src && cy.since < t <= cy.max ==> HasTime(cy.batch, t) || Handled(w, s, t)
  }

  ghost predicate CompleteMove(w: World, e: Event, src: Source) {
    MovesCursor(w, e) ==> Complete(w, src, e.s, PhaseOf(w, e.s).cy)
  }

  /** The adapter's side of the bargain at one event. What failed or crashed cycles have
      fetched does not matter, nor what appears behind a batch whose cycle fails. */
  ghost predicate OrderedStep(cfg: Config, w: World, e: Event, before: Source, after: Source) {
    ArrivalStep(cfg, w, e, before, after) && CompleteMove(w, e, before)
  }

  /** `src[i]` is the source just before event `i`. */
  ghost predicate OrderedRun(cfg: Config, w: World, es: seq<Event>, src: seq<Source>) {
    && |src| == |es| + 1
    && forall i :: 0 <= i < |es| ==> OrderedStep(cfg, Run(cfg, w, es[..i]), es[i], src[i], src[i + 1])
  }

  ghost predicate NoGapBelow(w: World, src: Source, s: StreamId, base: Time, cursor: Time) {
    forall t :: (s, t) in src && base < t <= cursor ==> Handled(w, s, t)
  }

  /** Nothing between the seed of the first advancing cycle and the cursor is missing. */
  ghost predicate GapFreeAt(w: World, src: Source, s: StreamId) {
    CursorOf(w, s).Some? ==> s in w.hist.base && NoGapBelow(w, src, s, w.hist.base[s], CursorOf(w, s).value)
  }

  /** A poll cycle starts at the stored cursor, or at a seed while there is none. */
  predicate StartsAtCursor(w: World, s: StreamId, since: Time) {
    && s in w.db.rows
    && since >= 0
    && (CursorOf(w, s).Some? ==> since == CursorOf(w, s).value)
  }

  predicate CursorBased(w: World, s: StreamId) {
    match CursorOf(w, s)
    case None => s !in w.hist.base
    case Some(c) => c > 0 && s in w.hist.base && w.hist.base[s] < c
  }

  predicate FetchBased(w: World, s: StreamId) {
    var ph := PhaseOf(w, s);
    && (ph.Fetching? ==> StartsAtCursor(w, s, ph.since))
    && (HasCycle(ph) && ph.cy.mode.Poll? ==> StartsAtCursor(w, s, ph.cy.since))
  }

  /** What holds whatever the adapter returns. */
  ghost predicate BaseInv(w: World) {
    ProgressInv(w) && forall s :: CursorBased(w, s) && FetchBased(w, s)
  }

  ghost predicate GapInv(w: World, src: Source) {
    BaseInv(w) && forall s :: GapFreeAt(w, src, s)
  }

  // ---- Pieces -----------------------------------------------------------------------------

  lemma {:induction false} MaxTimeIsMax(obs: seq<Observation>, start: Time)
    ensures start <= MaxTime(obs, start)
    ensures forall o :: o in obs ==> o.phenomenonTime <= MaxTime(obs, start)
    ensures forall t :: HasTime(obs, t) ==> t <= MaxTime(obs, start)
    ensures MaxTime(obs, start) == start || HasTime(obs, MaxTime(obs, start))
  {
    if obs != [] {
      var n := |obs| - 1;
      MaxTimeIsMax(obs[..n], start);
      assert obs == obs[..n] + [obs[n]];
      forall t | HasTime(obs, t) ensures t <= MaxTime(obs, start) {
        var i :| 0 <= i < |obs| && obs[i].phenomenonTime == t;
        if i < n { assert obs[..n][i].phenomenonTime == t; }
      }
      assert HasTime(obs, obs[n].phenomenonTime);
      if HasTime(obs[..n], MaxTime(obs[..n], start)) {
        var i :| 0 <= i < n && obs[..n][i].phenomenonTime == MaxTime(obs[..n], start);
        assert obs[i].phenomenonTime == MaxTime(obs[..n], start);
      }
    }
  }

  lemma {:induction false} MaxTimeGrows(obs: seq<Observation>, a: Time, b: Time)
    requires a <= b
    ensures MaxTime(obs, a) <= MaxTime(obs, b)
  {
    if obs != [] {
      MaxTimeGrows(obs[..|obs| - 1], a, b);
    }
  }

  /** What each deed does to a stream's cursor, row and base. */
  lemma DeedOnStream(cfg: Config, w: World, s: StreamId, d: Deed, o: StreamId)
    requires !d.MoveCursor? || o != s
    ensures var w' := Perform(cfg, w, s, d);
            && CursorOf(w', o) == CursorOf(w, o)
            && (o in w'.db.rows <==> o in w.db.rows)
            && (o in w'.hist.base <==> o in w.hist.base)
            && (o in w.hist.base ==> w'.hist.base[o] == w.hist.base[o])
  {
  }

  /** The cycle's own control flow never changes what it fetched. */
  lemma CycleKeepsBatch(cfg: Config, w: World, s: StreamId, a: Answer)
    ensures var ph, ph' := PhaseOf(w, s), MoveOf(cfg, w, s, a).next;
            && (HasCycle(ph) && HasCycle(ph') ==>
                  && ph'.cy.mode == ph.cy.mode && ph'.cy.since == ph.cy.since
                  && ph'.cy.horizon == ph.cy.horizon && ph'.cy.batch == ph.cy.batch)
            && (HasCycle(ph) ==> !ph'.Fetching?)
            && (ph'.Fetching? && !ph.Fetching? ==> ph.Idle? && a.CursorRead? && s in w.db.rows)
            && (ph'.Fetching? && ph.Fetching? ==> ph' == ph)
  {
  }

  /** A poll cycle is what it was before the event, or its fetch has just been answered. */
  lemma CycleComesFrom(cfg: Config, w: World, e: Event, s: StreamId)
    requires var ph := PhaseOf(Step(cfg, w, e), s); HasCycle(ph) && ph.cy.mode.Poll?
    ensures var cy := PhaseOf(Step(cfg, w, e), s).cy;
            if HasCycle(PhaseOf(w, s))
            then SameFetch(PhaseOf(w, s).cy, cy)
            else e == Effect(s, Fetched(cy.batch)) && PhaseOf(w, s) == Fetching(cy.since) && cy.horizon == w.clock + cfg.skew
  {
    if e.Effect? {
      EffectOnPhases(cfg, w, e.s, e.a);
      if e.s == s {
        CycleKeepsBatch(cfg, w, s, e.a);
        if !HasCycle(PhaseOf(w, s)) { CyclesComeFromStart(cfg, w, s, e.a); }
      }
    }
  }

  predicate SameFetch(a: Cycle, b: Cycle) {
    b.mode == a.mode && b.since == a.since && b.horizon == a.horizon && b.batch == a.batch
  }

  /** Every open poll cycle goes back to one fetch: of its batch, since its start, under the
      clock its validation used. */
  lemma {:induction false} CycleHasItsFetch(cfg: Config, w: World, es: seq<Event>, s: StreamId) returns (n: nat)
    requires Fresh(w)
    requires HasCycle(PhaseOf(Run(cfg, w, es), s)) && PhaseOf(Run(cfg, w, es), s).cy.mode.Poll?
    ensures var cy := PhaseOf(Run(cfg, w, es), s).cy;
            && n < |es| && es[n] == Effect(s, Fetched(cy.batch))
            && PhaseOf(Run(cfg, w, es[..n]), s) == Fetching(cy.since)
            && cy.horizon == Run(cfg, w, es[..n]).clock + cfg.skew
  {
    var m := |es| - 1;
    CycleComesFrom(cfg, Run(cfg, w, es[..m]), es[m], s);
    if HasCycle(PhaseOf(Run(cfg, w, es[..m]), s)) {
      n := CycleHasItsFetch(cfg, w, es[..m], s);
      assert es[..m][..n] == es[..n];
    } else {
      n := m;
    }
  }

  /** A finished cycle is about to move the cursor to the newest time it fetched. */
  lemma FinishedMaxIsNewest(w: World, s: StreamId)
    requires Progress(w, s) && PhaseOf(w, s).Advancing?
    ensures var cy := PhaseOf(w, s).cy; cy.max == MaxTime(cy.batch, cy.since)
  {
    var cy := PhaseOf(w, s).cy;
    MaxTimeIsMax(cy.batch, cy.since);
    if HasTime(cy.batch, MaxTime(cy.batch, cy.since)) {
      var i :| 0 <= i < |cy.batch| && cy.batch[i].phenomenonTime == MaxTime(cy.batch, cy.since);
      assert cy.batch[i] in cy.batch;
    }
  }

  // ---- Where cursors and fetches start -------------------------------------------------------

  lemma EffectKeepsCursorBased(cfg: Config, w: World, s: StreamId, a: Answer)
    requires Progress(w, s) && CursorBased(w, s) && FetchBased(w, s)
    ensures CursorBased(EffectStep(cfg, w, s, a), s)
  {
    var d := MoveOf(cfg, w, s, a).does;
    MoveCursorIsAdvancing(cfg, w, s, a);
    if !d.MoveCursor? {
      DeedOnStream(cfg, w, s, d, s);
    }
  }

  /** A cursor move ends the cycle, so no fetch depends on the old cursor any more. */
  lemma EffectKeepsFetchBased(cfg: Config, w: World, s: StreamId, a: Answer)
    requires CursorBased(w, s) && FetchBased(w, s)
    requires a.CursorRead? ==> w.clock - cfg.lookback >= 0
    ensures FetchBased(EffectStep(cfg, w, s, a), s)
  {
    var ph, m := PhaseOf(w, s), MoveOf(cfg, w, s, a);
    EffectOnPhases(cfg, w, s, a);
    MoveCursorIsAdvancing(cfg, w, s, a);
    CycleKeepsBatch(cfg, w, s, a);
    if m.does.MoveCursor? {
      assert m.next == Idle;
    } else {
      DeedOnStream(cfg, w, s, m.does, s);
      if HasCycle(m.next) && !HasCycle(ph) {
        CyclesComeFromStart(cfg, w, s, a);
      }
    }
  }

  lemma OthersKeepBased(cfg: Config, w: World, s: StreamId, a: Answer, o: StreamId)
    requires o != s && CursorBased(w, o) && FetchBased(w, o)
    ensures CursorBased(EffectStep(cfg, w, s, a), o) && FetchBased(EffectStep(cfg, w, s, a), o)
  {
    EffectOnPhases(cfg, w, s, a);
    DeedOnStream(cfg, w, s, MoveOf(cfg, w, s, a).does, o);
  }

  lemma StepKeepsBaseInv(cfg: Config, w: World, e: Event)
    requires BaseInv(w) && (e.Effect? && e.a.CursorRead? ==> w.clock - cfg.lookback >= 0)
    ensures BaseInv(Step(cfg, w, e))
  {
    var w' := Step(cfg, w, e);
    StepKeepsProgress(cfg, w, e);
    forall o ensures CursorBased(w', o) && FetchBased(w', o) {
      assert Progress(w, o) && CursorBased(w, o) && FetchBased(w, o);
      if e.Effect? && e.s == o {
        EffectKeepsCursorBased(cfg, w, o, e.a);
        EffectKeepsFetchBased(cfg, w, o, e.a);
      } else if e.Effect? {
        OthersKeepBased(cfg, w, e.s, e.a, o);
      }
    }
  }

  lemma FreshIsBased(w: World)
    requires Fresh(w)
    ensures BaseInv(w) && forall src: Source, s :: GapFreeAt(w, src, s)
  {
    FreshProgress(w);
    forall o ensures CursorBased(w, o) && FetchBased(w, o) {}
  }

  // ---- No gap -----------------------------------------------------------------------------------

  /** A complete move leaves nothing between the seed and the new cursor unhandled. */
  lemma AdvanceIsSound(cfg: Config, w: World, src: Source, s: StreamId, cy: Cycle)
    requires Progress(w, s) && CursorBased(w, s) && FetchBased(w, s) && GapFreeAt(w, src, s)
    requires PhaseOf(w, s) == Advancing(cy) && Complete(w, src, s, cy)
    ensures GapFreeAt(Advance(w, s, cy), src, s)
  {
    var w' := Advance(w, s, cy);
    forall t | (s, t) in src && w'.hist.base[s] < t <= cy.max ensures Handled(w', s, t) {
      if t > cy.since && HasTime(cy.batch, t) {
        var i :| 0 <= i < |cy.batch| && cy.batch[i].phenomenonTime == t;
        assert cy.batch[i] in cy.batch;
      }
      assert Handled(w, s, t);
    }
  }

  /** ... and one that is not complete does leave a gap. */
  lemma IncompleteMoveLeavesAGap(cfg: Config, w: World, src: Source, e: Event)
    requires BaseInv(w) && MovesCursor(w, e) && !CompleteMove(w, e, src)
    ensures !GapFreeAt(Step(cfg, w, e), src, e.s)
  {
    var s, cy, w' := e.s, PhaseOf(w, e.s).cy, Step(cfg, w, e);
    assert Progress(w, s) && CursorBased(w, s) && FetchBased(w, s);
    var t :| (s, t) in src && cy.since < t <= cy.max && !HasTime(cy.batch, t) && !Handled(w, s, t);
    assert CursorOf(w', s) == Some(cy.max) && w'.hist.base[s] <= cy.since;
    assert !Handled(w', s, t);
  }

  lemma GapFreeAcross(w: World, w': World, src: Source, s: StreamId)
    requires GapFreeAt(w, src, s)
    requires CursorOf(w', s) == CursorOf(w, s)
    requires s in w'.hist.base <==> s in w.hist.base
    requires s in w.hist.base ==> w'.hist.base[s] == w.hist.base[s]
    requires w.hist.rejected <= w'.hist.rejected && w.hist.refused <= w'.hist.refused
    requires w.hist.logged.Keys <= w'.hist.logged.Keys
    ensures GapFreeAt(w', src, s)
  {
  }

  /** An effect of `s` leaves no gap below its cursor. */
  lemma EffectKeepsGapFree(cfg: Config, w: World, src: Source, s: StreamId, a: Answer)
    requires Progress(w, s) && CursorBased(w, s) && FetchBased(w, s) && GapFreeAt(w, src, s)
    requires CompleteMove(w, Effect(s, a), src)
    ensures GapFreeAt(EffectStep(cfg, w, s, a), src, s)
  {
    var d, w' := MoveOf(cfg, w, s, a).does, EffectStep(cfg, w, s, a);
    MoveCursorIsAdvancing(cfg, w, s, a);
    if d.MoveCursor? {
      AdvanceIsSound(cfg, w, src, s, d.cy);
      GapFreeAcross(Advance(w, s, d.cy), w', src, s);
    } else {
      DeedOnStream(cfg, w, s, d, s);
      DeedKeepsHandled(cfg, w, s, d);
      GapFreeAcross(w, w', src, s);
    }
  }

  lemma OthersKeepGapFree(cfg: Config, w: World, src: Source, s: StreamId, a: Answer, o: StreamId)
    requires o != s && GapFreeAt(w, src, o)
    ensures GapFreeAt(EffectStep(cfg, w, s, a), src, o)
  {
    var d := MoveOf(cfg, w, s, a).does;
    DeedOnStream(cfg, w, s, d, o);
    DeedKeepsHandled(cfg, w, s, d);
    GapFreeAcross(w, EffectStep(cfg, w, s, a), src, o);
  }

  /** Rows that appear beyond the cursor open no gap below it. */
  lemma GrowthKeepsGapFree(w: World, before: Source, after: Source, s: StreamId)
    requires GapFreeAt(w, before, s)
    requires forall t :: (s, t) in after && (s, t) !in before ==> Beyond(w, s, t)
    ensures GapFreeAt(w, after, s)
  {
  }

  lemma StepKeepsGapInv(cfg: Config, w: World, e: Event, before: Source, after: Source)
    requires GapInv(w, before) && OrderedStep(cfg, w, e, before, after)
    ensures GapInv(Step(cfg, w, e), after)
  {
    var w' := Step(cfg, w, e);
    StepKeepsBaseInv(cfg, w, e);
    forall o ensures GapFreeAt(w', after, o) {
      assert Progress(w, o) && CursorBased(w, o) && FetchBased(w, o) && GapFreeAt(w, before, o);
      if e.Effect? && e.s == o {
        EffectKeepsGapFree(cfg, w, before, o, e.a);
      } else if e.Effect? {
        OthersKeepGapFree(cfg, w, before, e.s, e.a, o);
      } else {
        GapFreeAcross(w, w', before, o);
      }
      GrowthKeepsGapFree(w', before, after, o);
    }
  }

  lemma {:induction false} RunKeepsGapInv(cfg: Config, w: World, es: seq<Event>, src: seq<Source>)
    requires OrderedRun(cfg, w, es, src)
    requires GapInv(w, src[0])
    ensures GapInv(Run(cfg, w, es), src[|es|])
  {
    if es != [] {
      var n := |es| - 1;
      assert forall i :: 0 <= i <= n ==> es[..n][..i] == es[..i];
      RunKeepsGapInv(cfg, w, es[..n], src[..n + 1]);
      StepKeepsGapInv(cfg, Run(cfg, w, es[..n]), es[n], src[n], src[n + 1]);
    }
  }

  /** Gap-freedom: if new rows arrive only beyond the cursor, and each move of a cursor
      passes no source row that its cycle did not have, then — whatever fails, crashes or
      is purged in between — every source time above the seed of the first advancing cycle
      and up to the cursor was logged, rejected by the validator, or refused for good. */
  lemma NoGap(cfg: Config, w: World, es: seq<Event>, src: seq<Source>, s: StreamId)
    requires Fresh(w) && OrderedRun(cfg, w, es, src)
    requires CursorOf(Run(cfg, w, es), s).Some?
    ensures var end := Run(cfg, w, es);
            && s in end.hist.base
            && forall t :: (s, t) in src[|es|] && end.hist.base[s] < t <= CursorOf(end, s).value ==>
                 Handled(end, s, t)
  {
    FreshIsBased(w);
    RunKeepsGapInv(cfg, w, es, src);
    assert GapFreeAt(Run(cfg, w, es), src[|es|], s);
  }

  /** Rows arrive beyond the cursor and do not disappear. */
  ghost predicate ArrivalRun(cfg: Config, w: World, es: seq<Event>, src: seq<Source>) {
    && |src| == |es| + 1
    && forall i :: 0 <= i < |es| ==>
         src[i] <= src[i + 1] && ArrivalStep(cfg, Run(cfg, w, es[..i]), es[i], src[i], src[i + 1])
  }

  ghost predicate NeverAGap(cfg: Config, w: World, es: seq<Event>, src: seq<Source>)
    requires |src| == |es| + 1
  {
    forall i, s :: 0 <= i <= |es| ==> GapFreeAt(Run(cfg, w, es[..i]), src[i], s)
  }

  ghost predicate MovesAreComplete(cfg: Config, w: World, es: seq<Event>, src: seq<Source>)
    requires |src| == |es| + 1
  {
    forall i :: 0 <= i < |es| ==> CompleteMove(Run(cfg, w, es[..i]), es[i], src[i])
  }

  lemma {:induction false} RunKeepsBaseInv(cfg: Config, w: World, es: seq<Event>, src: seq<Source>, n: nat)
    requires Fresh(w) && ArrivalRun(cfg, w, es, src) && n <= |es|
    ensures BaseInv(Run(cfg, w, es[..n]))
  {
    if n == 0 {
      FreshIsBased(w);
    } else {
      RunKeepsBaseInv(cfg, w, es, src, n - 1);
      assert ArrivalStep(cfg, Run(cfg, w, es[..n - 1]), es[n - 1], src[n - 1], src[n]);
      StepKeepsBaseInv(cfg, Run(cfg, w, es[..n - 1]), es[n - 1]);
      assert es[..n][..n - 1] == es[..n - 1];
    }
  }

  lemma CompleteMovesLeaveNoGap(cfg: Config, w: World, es: seq<Event>, src: seq<Source>)
    requires Fresh(w) && ArrivalRun(cfg, w, es, src) && MovesAreComplete(cfg, w, es, src)
    ensures NeverAGap(cfg, w, es, src)
  {
    FreshIsBased(w);
    forall i, s | 0 <= i <= |es| ensures GapFreeAt(Run(cfg, w, es[..i]), src[i], s) {
      assert forall j :: 0 <= j <= i ==> es[..i][..j] == es[..j];
      RunKeepsGapInv(cfg, w, es[..i], src[..i + 1]);
    }
  }

  lemma IncompleteMoveShows(cfg: Config, w: World, es: seq<Event>, src: seq<Source>, i: nat)
    requires Fresh(w) && ArrivalRun(cfg, w, es, src)
    requires i < |es| && !CompleteMove(Run(cfg, w, es[..i]), es[i], src[i])
    ensures !NeverAGap(cfg, w, es, src)
  {
    RunKeepsBaseInv(cfg, w, es, src, i);
    IncompleteMoveLeavesAGap(cfg, Run(cfg, w, es[..i]), src[i], es[i]);
    assert es[..i + 1][..i] == es[..i];
    LargerSourceKeepsGap(Run(cfg, w, es[..i + 1]), src[i], src[i + 1], es[i].s);
  }

  lemma LargerSourceKeepsGap(w: World, before: Source, after: Source, s: StreamId)
    requires before <= after && !GapFreeAt(w, before, s)
    ensures !GapFreeAt(w, after, s)
  {
  }

  /** When rows arrive only beyond the cursor, no stream ever has a gap below its cursor if
      and only if every move of a cursor passes only rows that its cycle had fetched, or
      that were handled before. */
  lemma NoGapIff(cfg: Config, w: World, es: seq<Event>, src: seq<Source>)
    requires Fresh(w) && ArrivalRun(cfg, w, es, src)
    ensures NeverAGap(cfg, w, es, src) <==> MovesAreComplete(cfg, w, es, src)
  {
    if MovesAreComplete(cfg, w, es, src) {
      CompleteMovesLeaveNoGap(cfg, w, es, src);
    } else {
      var i :| 0 <= i < |es| && !CompleteMove(Run(cfg, w, es[..i]), es[i], src[i]);
      IncompleteMoveShows(cfg, w, es, src, i);
    }
  }

  // ---- Prefix fetches ---------------------------------------------------------------------------

  /** What an adapter can promise at the fetch: a prefix of its source, and new rows only
      behind the newest row of every batch that is being written. */
  ghost predicate SteadyStep(cfg: Config, w: World, e: Event, before: Source, after: Source) {
    && ArrivalStep(cfg, w, e, before, after)
    && (forall s, t :: (s, t) in after && (s, t) !in before ==> BehindBatch(Step(cfg, w, e), s, t))
    && (e.Effect? && e.a.Fetched? && PhaseOf(w, e.s).Fetching? ==>
          PrefixFetch(before, e.s, PhaseOf(w, e.s).since, e.a.rows))
  }

  predicate BehindBatch(w: World, s: StreamId, t: Time) {
    var ph := PhaseOf(w, s);
    HasCycle(ph) && ph.cy.mode.Poll? ==> t > MaxTime(ph.cy.batch, ph.cy.since)
  }

  ghost predicate SteadyRun(cfg: Config, w: World, es: seq<Event>, src: seq<Source>) {
    && |src| == |es| + 1
    && forall i :: 0 <= i < |es| ==> SteadyStep(cfg, Run(cfg, w, es[..i]), es[i], src[i], src[i + 1])
  }

  /** The batch of an open poll cycle is a prefix still. */
  ghost predicate HoldsPrefix(w: World, src: Source, s: StreamId) {
    var ph := PhaseOf(w, s);
    HasCycle(ph) && ph.cy.mode.Poll? ==> PrefixFetch(src, s, ph.cy.since, ph.cy.batch)
  }

  lemma EffectHoldsPrefix(cfg: Config, w: World, src: Source, s: StreamId, a: Answer)
    requires HoldsPrefix(w, src, s)
    requires a.Fetched? && PhaseOf(w, s).Fetching? ==> PrefixFetch(src, s, PhaseOf(w, s).since, a.rows)
    ensures HoldsPrefix(EffectStep(cfg, w, s, a), src, s)
  {
    var m := MoveOf(cfg, w, s, a);
    EffectOnPhases(cfg, w, s, a);
    CycleKeepsBatch(cfg, w, s, a);
    if HasCycle(m.next) && !HasCycle(PhaseOf(w, s)) {
      CyclesComeFromStart(cfg, w, s, a);
    }
  }

  lemma StepHoldsPrefix(cfg: Config, w: World, e: Event, before: Source, after: Source, s: StreamId)
    requires HoldsPrefix(w, before, s) && SteadyStep(cfg, w, e, before, after)
    ensures HoldsPrefix(Step(cfg, w, e), after, s)
  {
    if e.Effect? && e.s == s {
      EffectHoldsPrefix(cfg, w, before, s, e.a);
    } else if e.Effect? {
      EffectOnPhases(cfg, w, e.s, e.a);
    }
    assert HoldsPrefix(Step(cfg, w, e), before, s);
  }

  lemma {:induction false} RunHoldsPrefix(cfg: Config, w: World, es: seq<Event>, src: seq<Source>, s: StreamId)
    requires Fresh(w) && SteadyRun(cfg, w, es, src)
    ensures HoldsPrefix(Run(cfg, w, es), src[|es|], s)
  {
    if es != [] {
      var n := |es| - 1;
      assert forall i :: 0 <= i <= n ==> es[..n][..i] == es[..i];
      RunHoldsPrefix(cfg, w, es[..n], src[..n + 1], s);
      StepHoldsPrefix(cfg, Run(cfg, w, es[..n]), es[n], src[n], src[n + 1], s);
    }
  }

  /** Such an adapter lets every move be complete. */
  lemma SteadyRunIsOrdered(cfg: Config, w: World, es: seq<Event>, src: seq<Source>)
    requires Fresh(w) && SteadyRun(cfg, w, es, src)
    ensures OrderedRun(cfg, w, es, src)
  {
    FreshProgress(w);
    forall i | 0 <= i < |es| ensures OrderedStep(cfg, Run(cfg, w, es[..i]), es[i], src[i], src[i + 1]) {
      var cur := Run(cfg, w, es[..i]);
      assert SteadyStep(cfg, cur, es[i], src[i], src[i + 1]);
      if MovesCursor(cur, es[i]) {
        assert forall j :: 0 <= j <= i ==> es[..i][..j] == es[..j];
        RunHoldsPrefix(cfg, w, es[..i], src[..i + 1], es[i].s);
        RunKeepsProgress(cfg, w, es[..i]);
        assert Progress(cur, es[i].s);
        FinishedMaxIsNewest(cur, es[i].s);
      }
    }
  }

  // A prefix at the time of the fetch is not enough: a row that appears behind it is lost.

  const TO_NEWEST := Config([], 0, 0, map[])

  function LateWorld(): World {
    World(Tables(map[1 := Row(None, None, None, 0)], map[]), map[], map[], 5, History({}, {}, map[], map[]))
  }

  /** A reading without a value, which the validator rejects and the cursor passes. */
  function NoReading(): Observation {
    Observation("bin", FILL_LEVEL, 10, 10, NaN, None, "raw")
  }

  function LateRun(): seq<Event> {
    [Effect(1, CursorRead), Effect(1, Fetched([NoReading()])), Effect(1, AdvanceDone)]
  }

  /** The row at 7 appears after the row at 10 was fetched, and before the cursor moves. */
  ghost function LateSources(): seq<Source> {
    var before, after := iset{(1, 10)}, iset{(1, 7), (1, 10)};
    [before, before, after, after]
  }

  lemma NoReadingIsRejected()
    ensures var o := NoReading();
            && V.Kept([o], 5, 5, 0) == [] && V.Rejected([o], 5, 5, 0) == [V.Rejection(0, o, V.MissingResult)]
  {
    assert [NoReading()][..0] == [];
  }

  /** The fetch is answered, and the cycle has nothing to write. */
  function FetchedWorld(): World {
    LateWorld().(phases := map[1 := Advancing(Cycle(Poll, 5, 5, [NoReading()], [], 10, []))],
                 hist := History({LogKey(1, 10)}, {}, map[], map[]))
  }

  lemma FetchIsAnswered()
    ensures Step(TO_NEWEST, LateWorld().(phases := map[1 := Fetching(5)]), LateRun()[1]) == FetchedWorld()
  {
    NoReadingIsRejected();
    var r := V.Rejection(0, NoReading(), V.MissingResult);
    assert [r][..0] == [] && MaxRejected([r], 5) == 10;
    assert RejectedKeys(1, [r]) == {LogKey(1, 10)};
  }

  lemma LateRunEnds()
    ensures var w, es := LateWorld(), LateRun();
            && Run(TO_NEWEST, w, es[..0]) == w
            && Run(TO_NEWEST, w, es[..1]) == w.(phases := map[1 := Fetching(5)])
            && Run(TO_NEWEST, w, es[..2]) == FetchedWorld()
            && Run(TO_NEWEST, w, es) == Step(TO_NEWEST, FetchedWorld(), es[2])
  {
    var w, es := LateWorld(), LateRun();
    assert es[..2][..1] == es[..1] && es[..1][..0] == es[..0] == [];
    FetchIsAnswered();
  }

  lemma CursorPassesTheRow()
    ensures var end := Step(TO_NEWEST, FetchedWorld(), LateRun()[2]);
            CursorOf(end, 1) == Some(10) && end.hist == History({LogKey(1, 10)}, {}, map[], map[1 := 5])
  {
  }

  /** Only while the second event happens does a row appear, and there is no cursor yet. */
  lemma LateRowIsBeyond()
    ensures var es, src := LateRun(), LateSources();
            ArrivalStep(TO_NEWEST, Run(TO_NEWEST, LateWorld(), es[..1]), es[1], src[1], src[2])
  {
    LateRunEnds();
    assert LateRun()[..2][..1] == LateRun()[..1];
  }

  lemma LateRowsArrive()
    ensures ArrivalRun(TO_NEWEST, LateWorld(), LateRun(), LateSources())
  {
    LateRowIsBeyond();
    LateRunEnds();
    var w, es, src := LateWorld(), LateRun(), LateSources();
    assert ArrivalStep(TO_NEWEST, Run(TO_NEWEST, w, es[..0]), es[0], src[0], src[1]);
    assert ArrivalStep(TO_NEWEST, Run(TO_NEWEST, w, es[..2]), es[2], src[2], src[3]);
  }

  /** The fetch since 5 returned all there was, [10]; then 7 appeared, beyond the cursor that
      did not exist yet; the move to 10 loses it. */
  lemma LateArrivalIsLost()
    ensures var w, es, src := LateWorld(), LateRun(), LateSources();
            var end := Run(TO_NEWEST, w, es);
            && Fresh(w) && ArrivalRun(TO_NEWEST, w, es, src)
            && PhaseOf(Run(TO_NEWEST, w, es[..1]), 1) == Fetching(5) && PrefixFetch(src[1], 1, 5, [NoReading()])
            && CursorOf(end, 1) == Some(10) && end.hist.base == map[1 := 5]
            && (1, 7) in src[3] && !Handled(end, 1, 7)
  {
    LateRowsArrive();
    LateRunEnds();
    CursorPassesTheRow();
    NewestOfOne();
  }

  lemma NewestOfOne()
    ensures PrefixFetch(iset{(1, 10)}, 1, 5, [NoReading()])
  {
    assert [NoReading()][0].phenomenonTime == 10;
  }

  // ---- The cursor and the clock -------------------------------------------------------------

  /** The clock does not run backwards, and no fetched row is dated after it. */
  predicate NoForecast(w: World, e: Event) {
    && (e.Tick? ==> e.now >= w.clock)
    && (e.Effect? && e.a.Fetched? && PhaseOf(w, e.s).Fetching? ==>
          forall o :: o in e.a.rows ==> o.phenomenonTime <= w.clock)
  }

  predicate NoForecastRun(cfg: Config, w: World, es: seq<Event>) {
    forall i :: 0 <= i < |es| ==> NoForecast(Run(cfg, w, es[..i]), es[i])
  }

  predicate BelowClock(w: World, s: StreamId) {
    var ph := PhaseOf(w, s);
    && (CursorOf(w, s).Some? ==> CursorOf(w, s).value <= w.clock)
    && (ph.Fetching? ==> ph.since <= w.clock)
    && (HasCycle(ph) && ph.cy.mode.Poll? ==>
          && ph.cy.since <= w.clock
          && (forall o :: o in ph.cy.batch ==> o.phenomenonTime <= w.clock))
  }

  lemma MaxBelowClock(w: World, s: StreamId)
    requires Progress(w, s) && BelowClock(w, s) && PhaseOf(w, s).Advancing?
    ensures PhaseOf(w, s).cy.max <= w.clock
  {
  }

  lemma OthersStayBelowClock(cfg: Config, w: World, s: StreamId, a: Answer, o: StreamId)
    requires o != s && BelowClock(w, o)
    ensures BelowClock(EffectStep(cfg, w, s, a), o)
  {
    EffectOnPhases(cfg, w, s, a);
    DeedOnStream(cfg, w, s, MoveOf(cfg, w, s, a).does, o);
  }

  lemma CursorStaysBelowClock(cfg: Config, w: World, s: StreamId, a: Answer)
    requires Progress(w, s) && BelowClock(w, s)
    ensures var c := CursorOf(EffectStep(cfg, w, s, a), s); c.Some? ==> c.value <= w.clock
  {
    var d := MoveOf(cfg, w, s, a).does;
    MoveCursorIsAdvancing(cfg, w, s, a);
    if d.MoveCursor? {
      MaxBelowClock(w, s);
    } else {
      DeedOnStream(cfg, w, s, d, s);
    }
  }

  lemma CycleStaysBelowClock(cfg: Config, w: World, s: StreamId, a: Answer)
    requires cfg.lookback >= 0 && BelowClock(w, s) && NoForecast(w, Effect(s, a))
    ensures var ph := MoveOf(cfg, w, s, a).next;
            && (ph.Fetching? ==> ph.since <= w.clock)
            && (HasCycle(ph) && ph.cy.mode.Poll? ==>
                  ph.cy.since <= w.clock && forall o :: o in ph.cy.batch ==> o.phenomenonTime <= w.clock)
  {
    var ph := MoveOf(cfg, w, s, a).next;
    CycleKeepsBatch(cfg, w, s, a);
    if HasCycle(ph) && !HasCycle(PhaseOf(w, s)) {
      CyclesComeFromStart(cfg, w, s, a);
    }
  }

  ghost predicate ClockInv(w: World) {
    ProgressInv(w) && forall o :: BelowClock(w, o)
  }

  lemma StepKeepsClockInv(cfg: Config, w: World, e: Event)
    requires cfg.lookback >= 0 && ClockInv(w) && NoForecast(w, e)
    ensures ClockInv(Step(cfg, w, e))
  {
    StepKeepsProgress(cfg, w, e);
    forall o ensures BelowClock(Step(cfg, w, e), o) {
      assert Progress(w, o) && BelowClock(w, o);
      if e.Effect? && e.s == o {
        EffectOnPhases(cfg, w, o, e.a);
        CursorStaysBelowClock(cfg, w, o, e.a);
        CycleStaysBelowClock(cfg, w, o, e.a);
      } else if e.Effect? {
        OthersStayBelowClock(cfg, w, e.s, e.a, o);
      }
    }
  }

  lemma {:induction false} RunKeepsClockInv(cfg: Config, w: World, es: seq<Event>)
    requires cfg.lookback >= 0 && ClockInv(w) && NoForecastRun(cfg, w, es)
    ensures ClockInv(Run(cfg, w, es))
  {
    if es != [] {
      var n := |es| - 1;
      assert forall i :: 0 <= i <= n ==> es[..n][..i] == es[..i];
      assert forall i :: 0 <= i < n ==> es[..n][i] == es[i];
      RunKeepsClockInv(cfg, w, es[..n]);
      StepKeepsClockInv(cfg, Run(cfg, w, es[..n]), es[n]);
    }
  }

  /** With an adapter that holds back forecasts and a clock that only moves forward, no
      reachable cursor lies after now. */
  lemma CursorNeverPassesClock(cfg: Config, w: World, es: seq<Event>, s: StreamId)
    requires cfg.lookback >= 0 && Fresh(w) && NoForecastRun(cfg, w, es)
    ensures var c := CursorOf(Run(cfg, w, es), s); c.Some? ==> c.value <= Run(cfg, w, es).clock
    ensures ClockInv(Run(cfg, w, es))
  {
    FreshProgress(w);
    forall o ensures BelowClock(w, o) {}
    RunKeepsClockInv(cfg, w, es);
    assert BelowClock(Run(cfg, w, es), s);
  }

  /** `cy` moves the cursor of `s` over instant `t`, which is past by then, because of the
      newest row it fetched; any row of its own at `t` has been dealt with. */
  predicate PassesMatured(w: World, s: StreamId, cy: Cycle, t: Time) {
    && PhaseOf(w, s) == Advancing(cy)
    && (CursorOf(w, s).Some? ==> CursorOf(w, s).value < t)
    && t <= cy.max <= w.clock
    && HasTime(cy.batch, cy.max)
    && (forall o :: o in cy.batch ==> Dealt(w, s, cy.since, cy.horizon, o))
  }

  lemma ClockInvAt(cfg: Config, w: World, es: seq<Event>, n: nat)
    requires cfg.lookback >= 0 && Fresh(w) && NoForecastRun(cfg, w, es) && n <= |es|
    ensures ClockInv(Run(cfg, w, es[..n]))
  {
    assert forall j :: 0 <= j <= n ==> es[..n][..j] == es[..j];
    assert forall j :: 0 <= j < n ==> es[..n][j] == es[j];
    CursorNeverPassesClock(cfg, w, es[..n], 0);
  }

  /** Event `k` moves the cursor of `s` over `t`, which is past by then. */
  predicate PassedAt(cfg: Config, w: World, es: seq<Event>, s: StreamId, k: nat, t: Time)
    requires k < |es|
  {
    var at := Run(cfg, w, es[..k]);
    && MovesCursor(at, es[k]) && es[k].s == s
    && PassesMatured(at, s, PhaseOf(at, s).cy, t)
    && CursorOf(Run(cfg, w, es[..k + 1]), s) == Some(PhaseOf(at, s).cy.max)
  }

  predicate IsLate(cfg: Config, w: World, es: seq<Event>, s: StreamId, n: nat, t: Time)
    requires n <= |es|
  {
    var c := CursorOf(Run(cfg, w, es[..n]), s);
    c.Some? && c.value >= t
  }

  lemma {:induction false} FirstLate(cfg: Config, w: World, es: seq<Event>, s: StreamId, i: nat, n: nat, t: Time)
    returns (k: nat)
    requires i <= n <= |es| && !IsLate(cfg, w, es, s, i, t) && IsLate(cfg, w, es, s, n, t)
    ensures i <= k < n && !IsLate(cfg, w, es, s, k, t) && IsLate(cfg, w, es, s, k + 1, t)
    decreases n
  {
    if IsLate(cfg, w, es, s, n - 1, t) {
      k := FirstLate(cfg, w, es, s, i, n - 1, t);
    } else {
      k := n - 1;
    }
  }

  /** What was a forecast after `i` events and is late after `n` was passed only after it had
      matured. */
  lemma ForecastIsPassedLate(cfg: Config, w: World, es: seq<Event>, s: StreamId, i: nat, n: nat, t: Time)
    returns (k: nat)
    requires cfg.lookback >= 0 && Fresh(w) && NoForecastRun(cfg, w, es)
    requires i <= n <= |es| && t > Run(cfg, w, es[..i]).clock && IsLate(cfg, w, es, s, n, t)
    ensures i <= k < n && PassedAt(cfg, w, es, s, k, t)
  {
    NotLateAtForecast(cfg, w, es, s, i, t);
    k := FirstLate(cfg, w, es, s, i, n, t);
    BecomesLate(cfg, w, es, s, k, t);
  }

  lemma NotLateAtForecast(cfg: Config, w: World, es: seq<Event>, s: StreamId, i: nat, t: Time)
    requires cfg.lookback >= 0 && Fresh(w) && NoForecastRun(cfg, w, es)
    requires i <= |es| && t > Run(cfg, w, es[..i]).clock
    ensures !IsLate(cfg, w, es, s, i, t)
  {
    ClockInvAt(cfg, w, es, i);
    assert BelowClock(Run(cfg, w, es[..i]), s);
  }

  lemma BecomesLate(cfg: Config, w: World, es: seq<Event>, s: StreamId, k: nat, t: Time)
    requires cfg.lookback >= 0 && Fresh(w) && NoForecastRun(cfg, w, es) && k < |es|
    requires !IsLate(cfg, w, es, s, k, t) && IsLate(cfg, w, es, s, k + 1, t)
    ensures PassedAt(cfg, w, es, s, k, t)
  {
    ClockInvAt(cfg, w, es, k);
    assert es[..k + 1][..k] == es[..k];
    PassesAtLast(cfg, Run(cfg, w, es[..k]), es[k], s, t);
  }

  lemma PassesAtLast(cfg: Config, w: World, e: Event, s: StreamId, t: Time)
    requires ClockInv(w)
    requires CursorOf(w, s).Some? ==> CursorOf(w, s).value < t
    requires CursorOf(Step(cfg, w, e), s).Some? && CursorOf(Step(cfg, w, e), s).value >= t
    ensures MovesCursor(w, e) && e.s == s
    ensures PassesMatured(w, s, PhaseOf(w, s).cy, t) && CursorOf(Step(cfg, w, e), s) == Some(PhaseOf(w, s).cy.max)
  {
    assert Progress(w, s) && BelowClock(w, s);
    CursorMovesOnlyInAdvance(cfg, w, s, e);
    MaxBelowClock(w, s);
  }

  /** Exactly when a finished cycle is about to move the cursor past the clock: one of the
      rows it fetched is dated after it. */
  lemma CursorPassesClockIff(cfg: Config, w: World, es: seq<Event>, s: StreamId)
    requires Fresh(w)
    requires var ph := PhaseOf(Run(cfg, w, es), s);
             ph.Advancing? && ph.cy.since <= Run(cfg, w, es).clock
    ensures var end := Run(cfg, w, es);
            var cy := PhaseOf(end, s).cy;
            cy.max > end.clock <==> exists o :: o in cy.batch && o.phenomenonTime > end.clock
  {
    FreshProgress(w);
    RunKeepsProgress(cfg, w, es);
    var end := Run(cfg, w, es);
    assert Progress(end, s);
    BatchReachesMax(end, s, PhaseOf(end, s).cy);
  }

  lemma BatchReachesMax(w: World, s: StreamId, cy: Cycle)
    requires CycleTrue(w, s, cy) && cy.todo == [] && cy.max > cy.since
    ensures forall o :: o in cy.batch ==> o.phenomenonTime <= cy.max
    ensures exists o :: o in cy.batch && o.phenomenonTime == cy.max
  {
  }

  /** The ingest core alone lets a single future-dated row set the cursor: the rejection
      counts as covered, and from then on every row up to that date is dropped as late. */
  lemma OneFutureRowPoisonsTheStream(
    cfg: Config, w: World, s: StreamId, since: Time, o: Observation, later: seq<Observation>, now: Time)
    requires PhaseOf(w, s) == Fetching(since) && s in w.db.rows && o.phenomenonTime != ZERO_TIME
    requires CursorOf(w, s).Some? ==> CursorOf(w, s).value == since
    requires o.phenomenonTime > w.clock + cfg.skew && o.phenomenonTime > since
    requires forall x :: x in later ==> x.phenomenonTime <= o.phenomenonTime
    ensures var end := Run(cfg, w, [Effect(s, Fetched([o])), Effect(s, AdvanceDone)]);
            && CursorOf(end, s) == Some(o.phenomenonTime)
            && V.Kept(later, o.phenomenonTime, now, cfg.skew) == []
  {
    var fetch, advance := Effect(s, Fetched([o])), Effect(s, AdvanceDone);
    assert [fetch, advance][..1] == [fetch];
    assert [fetch][..0] == [];
    assert Run(cfg, w, [fetch]) == Step(cfg, w, fetch);
    assert !V.Passes(o, since, w.clock, cfg.skew);
    assert [o][..0] == [];
    assert V.Kept([o], since, w.clock, cfg.skew) == [];
    var reason := V.Validate(o, since, w.clock, cfg.skew).value;
    assert V.Rejected([o], since, w.clock, cfg.skew) == [V.Rejection(0, o, reason)];
    assert [V.Rejection(0, o, reason)][..0] == [];
    assert MaxRejected([V.Rejection(0, o, reason)], since) == o.phenomenonTime;
    V.LateBatchIsRejected(later, o.phenomenonTime, now, cfg.skew);
  }
}
