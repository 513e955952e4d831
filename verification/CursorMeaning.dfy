/** What the persisted poll cursor promises: everything a cycle fetched was dealt with
    before its cursor moved, the cursor never moves back, and — when the adapter returns
    prefixes of its source — nothing between the first seed and the cursor was missed. */
module CursorMeaning {
  import opened Canonical
  import opened Store
  import opened WritePath
  import opened AtMostOnce
  import V = Validator

  /** Rejected by the validator, refused for good by a target, or logged — ever. */
  predicate Handled(w: World, s: StreamId, t: Time) {
    var k := LogKey(s, t);
    k in w.hist.rejected || k in w.hist.refused || k in w.hist.logged
  }

  predicate Written(w: World, s: StreamId, t: Time) {
    LogKey(s, t) in w.hist.logged || LogKey(s, t) in w.hist.refused
  }

  /** What a validation at `horizon` owes a row: one that passes is logged, or refused for
      good; one that breaks a rule is rejected. */
  predicate Dealt(w: World, s: StreamId, since: Time, horizon: Time, o: Observation) {
    if V.Passes(o, since, horizon, 0) then Written(w, s, o.phenomenonTime)
    else LogKey(s, o.phenomenonTime) in w.hist.rejected
  }

  predicate HasCycle(ph: Phase) {
    ph.Resolving? || ph.Checking? || ph.Probing? || ph.Posting? || ph.Recording? || ph.Advancing?
  }

  /** `max` is the cycle's start or a batch time, and every batch row is either kept and
      still to do, or dealt with and at most `max`. */
  predicate CycleTrue(w: World, s: StreamId, cy: Cycle) {
    && (forall o :: o in cy.todo ==> o in cy.batch && V.Passes(o, cy.since, cy.horizon, 0))
    && (forall o :: o in cy.batch ==>
          o in cy.todo || (Dealt(w, s, cy.since, cy.horizon, o) && o.phenomenonTime <= cy.max))
    && cy.since <= cy.max
    && (cy.max == cy.since || HasTime(cy.batch, cy.max))
  }

  predicate Progress(w: World, s: StreamId) {
    var ph := PhaseOf(w, s);
    && (HasCycle(ph) ==> CycleTrue(w, s, ph.cy))
    && (ph.Advancing? ==> ph.cy.todo == [] && ph.cy.mode.Poll? && ph.cy.max > ph.cy.since)
    && (HasCycle(ph) && !ph.Advancing? ==> ph.cy.todo != [])
  }

  ghost predicate ProgressInv(w: World) {
    && (forall s :: Progress(w, s))
    && w.db.log.Keys <= w.hist.logged.Keys
  }

  // ---- How a cycle starts and moves on --------------------------------------------------

  lemma {:induction false} MaxRejectedIsMax(rejected: seq<V.Rejection>, start: Time)
    ensures var m := MaxRejected(rejected, start);
            && start <= m
            && (forall r :: r in rejected ==> r.observation.phenomenonTime <= m)
            && (m == start || exists r :: r in rejected && r.observation.phenomenonTime == m)
  {
    if rejected != [] {
      var n := |rejected| - 1;
      MaxRejectedIsMax(rejected[..n], start);
      assert rejected == rejected[..n] + [rejected[n]];
      assert rejected[n] in rejected;
    }
  }

  lemma {:induction false} RejectedMembers(obs: seq<Observation>, cursor: Time, now: Time, skew: int)
    ensures forall o :: o in obs && !V.Passes(o, cursor, now, skew) ==>
              exists r :: r in V.Rejected(obs, cursor, now, skew) && r.observation == o
    ensures forall r :: r in V.Rejected(obs, cursor, now, skew) ==> r.observation in obs
  {
    if obs != [] {
      var n := |obs| - 1;
      RejectedMembers(obs[..n], cursor, now, skew);
      assert obs == obs[..n] + [obs[n]];
      if !V.Passes(obs[n], cursor, now, skew) {
        var last := V.Rejection(n, obs[n], V.Validate(obs[n], cursor, now, skew).value);
        assert last in V.Rejected(obs, cursor, now, skew);
      }
    }
  }

  lemma TimeOf(obs: seq<Observation>, o: Observation)
    requires o in obs
    ensures HasTime(obs, o.phenomenonTime)
  {
    var i :| 0 <= i < |obs| && obs[i] == o;
  }

  /** The cycle as `Start` builds it, before its first effect. */
  function FirstCycle(cfg: Config, mode: Mode, since: Time, batch: seq<Observation>, clock: Time): Cycle {
    Cycle(mode, since, clock + cfg.skew, batch, V.Kept(batch, since, clock, cfg.skew),
          MaxRejected(V.Rejected(batch, since, clock, cfg.skew), since), [])
  }

  lemma StartIsTrue(cfg: Config, w: World, s: StreamId, mode: Mode, since: Time, batch: seq<Observation>)
    ensures CycleTrue(Note(cfg, w, s, since, batch), s, FirstCycle(cfg, mode, since, batch, w.clock))
  {
    var rejected := V.Rejected(batch, since, w.clock, cfg.skew);
    V.KeptMembers(batch, since, w.clock, cfg.skew);
    RejectedMembers(batch, since, w.clock, cfg.skew);
    MaxRejectedIsMax(rejected, since);
    var cy := FirstCycle(cfg, mode, since, batch, w.clock);
    if cy.max != cy.since {
      var r :| r in rejected && r.observation.phenomenonTime == cy.max;
      TimeOf(batch, r.observation);
    }
    var w' := Note(cfg, w, s, since, batch);
    forall o | o in batch && o !in cy.todo
      ensures Dealt(w', s, cy.since, cy.horizon, o) && o.phenomenonTime <= cy.max
    {
      var r :| r in rejected && r.observation == o;
      assert LogKey(s, r.observation.phenomenonTime) in RejectedKeys(s, rejected);
    }
  }

  lemma NextIsTrue(w: World, s: StreamId, cy: Cycle)
    requires CycleTrue(w, s, cy) && cy.todo != [] && Written(w, s, HeadTime(cy))
    ensures CycleTrue(w, s, cy.(todo := cy.todo[1..], max := Max(cy.max, cy.todo[0].phenomenonTime)))
  {
  }

  /** History only grows, so what was handled stays handled. */
  lemma DeedKeepsHandled(cfg: Config, w: World, s: StreamId, d: Deed)
    ensures var w' := Perform(cfg, w, s, d);
            && w.hist.rejected <= w'.hist.rejected
            && w.hist.refused <= w'.hist.refused
            && w.hist.logged.Keys <= w'.hist.logged.Keys
            && (w.db.log.Keys <= w.hist.logged.Keys ==> w'.db.log.Keys <= w'.hist.logged.Keys)
  {
  }

  lemma KeptProgress(w: World, w': World, s: StreamId)
    requires Progress(w, s) && PhaseOf(w', s) == PhaseOf(w, s)
    requires w.hist.rejected <= w'.hist.rejected && w.hist.refused <= w'.hist.refused
    requires w.hist.logged.Keys <= w'.hist.logged.Keys
    ensures Progress(w', s)
  {
  }

  /** A covered observation really is: found in the log, recorded, or refused. */
  lemma CoveredIsWritten(cfg: Config, w: World, s: StreamId, a: Answer)
    requires w.db.log.Keys <= w.hist.logged.Keys
    requires var ph := PhaseOf(w, s); ph.Checking? || ph.Probing? || ph.Posting? || ph.Recording?
    requires PhaseOf(w, s).cy.todo != []
    ensures var cy, ph' := PhaseOf(w, s).cy, MoveOf(cfg, w, s, a).next;
            HasCycle(ph') ==>
              || ph'.cy == cy
              || (ph' == Covered(cy) && Written(EffectStep(cfg, w, s, a), s, HeadTime(cy)))
  {
    var ph, m, w' := PhaseOf(w, s), MoveOf(cfg, w, s, a), EffectStep(cfg, w, s, a);
    var k := LogKey(s, HeadTime(ph.cy));
    if ph.Posting? && a.PostCreated? {
      assert (ph.replies + [Created(a.id)])[|ph.replies|].Created?;
    } else if m.does.Refuse? {
      assert k in w'.hist.refused;
    } else if ph.Recording? && m.does.Insert? && s in w.db.rows {
      assert k in w'.hist.logged;
    }
  }

  lemma CoveredIsTrue(w: World, s: StreamId, cy: Cycle)
    requires CycleTrue(w, s, cy) && cy.todo != [] && Written(w, s, HeadTime(cy))
    ensures var ph := Covered(cy);
            && (HasCycle(ph) ==> CycleTrue(w, s, ph.cy))
            && (ph.Advancing? ==> ph.cy.todo == [] && ph.cy.mode.Poll? && ph.cy.max > ph.cy.since)
            && (HasCycle(ph) && !ph.Advancing? ==> ph.cy.todo != [])
  {
    NextIsTrue(w, s, cy);
  }

  /** Outside a cycle, one begins only by Start; inside, `cy` changes only by resolving
      ids or by covering the first observation. */
  lemma CyclesComeFromStart(cfg: Config, w: World, s: StreamId, a: Answer)
    requires !HasCycle(PhaseOf(w, s))
    ensures var m := MoveOf(cfg, w, s, a);
            HasCycle(m.next) ==>
              && m.does.Reject?
              && m.next == Start(cfg, m.does.mode, m.does.since, m.does.batch, w.clock)
              && (m.does.mode.Poll? ==> PhaseOf(w, s) == Fetching(m.does.since))
  {
  }

  lemma BeginKeepsProgress(cfg: Config, w: World, s: StreamId, a: Answer)
    requires !HasCycle(PhaseOf(w, s))
    ensures Progress(EffectStep(cfg, w, s, a), s)
  {
    var m, w' := MoveOf(cfg, w, s, a), EffectStep(cfg, w, s, a);
    EffectOnPhases(cfg, w, s, a);
    CyclesComeFromStart(cfg, w, s, a);
    if HasCycle(m.next) {
      StartIsTrue(cfg, w, s, m.does.mode, m.does.since, m.does.batch);
      assert CycleTrue(w', s, FirstCycle(cfg, m.does.mode, m.does.since, m.does.batch, w.clock));
    }
  }

  lemma ResolveKeepsProgress(cfg: Config, w: World, s: StreamId, a: Answer)
    requires Progress(w, s)
    requires PhaseOf(w, s).Resolving? || PhaseOf(w, s).Advancing?
    ensures Progress(EffectStep(cfg, w, s, a), s)
  {
    EffectOnPhases(cfg, w, s, a);
    DeedKeepsHandled(cfg, w, s, MoveOf(cfg, w, s, a).does);
  }

  lemma CycleKept(w: World, w': World, s: StreamId, cy: Cycle)
    requires CycleTrue(w, s, cy)
    requires w.hist.rejected <= w'.hist.rejected && w.hist.refused <= w'.hist.refused
    requires w.hist.logged.Keys <= w'.hist.logged.Keys
    ensures CycleTrue(w', s, cy)
  {
  }

  lemma WriteKeepsProgress(cfg: Config, w: World, s: StreamId, a: Answer)
    requires Progress(w, s) && w.db.log.Keys <= w.hist.logged.Keys
    requires var ph := PhaseOf(w, s); ph.Checking? || ph.Probing? || ph.Posting? || ph.Recording?
    ensures Progress(EffectStep(cfg, w, s, a), s)
  {
    var ph, m, w' := PhaseOf(w, s), MoveOf(cfg, w, s, a), EffectStep(cfg, w, s, a);
    EffectOnPhases(cfg, w, s, a);
    DeedKeepsHandled(cfg, w, s, m.does);
    CycleKept(w, w', s, ph.cy);
    CoveredIsWritten(cfg, w, s, a);
    SameCycleStaysInside(cfg, w, s, a);
    if HasCycle(m.next) && m.next.cy != ph.cy {
      CoveredIsTrue(w', s, ph.cy);
    }
  }

  lemma EffectKeepsProgress(cfg: Config, w: World, s: StreamId, a: Answer)
    requires Progress(w, s) && w.db.log.Keys <= w.hist.logged.Keys
    ensures Progress(EffectStep(cfg, w, s, a), s)
  {
    var ph := PhaseOf(w, s);
    if !HasCycle(ph) {
      BeginKeepsProgress(cfg, w, s, a);
    } else if ph.Resolving? || ph.Advancing? {
      ResolveKeepsProgress(cfg, w, s, a);
    } else {
      WriteKeepsProgress(cfg, w, s, a);
    }
  }

  lemma SameCycleStaysInside(cfg: Config, w: World, s: StreamId, a: Answer)
    requires var ph := PhaseOf(w, s); ph.Checking? || ph.Probing? || ph.Posting? || ph.Recording?
    requires PhaseOf(w, s).cy.todo != []
    ensures var ph' := MoveOf(cfg, w, s, a).next;
            HasCycle(ph') && ph'.cy == PhaseOf(w, s).cy ==> !ph'.Advancing?
  {
  }

  lemma StepKeepsProgress(cfg: Config, w: World, e: Event)
    requires ProgressInv(w)
    ensures ProgressInv(Step(cfg, w, e))
  {
    var w' := Step(cfg, w, e);
    match e
    case Effect(s, a) =>
      DeedKeepsHandled(cfg, w, s, MoveOf(cfg, w, s, a).does);
      EffectOnPhases(cfg, w, s, a);
      forall o ensures Progress(w', o) {
        assert Progress(w, o);
        if o == s { EffectKeepsProgress(cfg, w, s, a); } else { KeptProgress(w, w', o); }
      }
    case _ =>
      forall o ensures Progress(w', o) {
        assert Progress(w, o);
        if !e.Crash? { KeptProgress(w, w', o); }
      }
  }

  lemma {:induction false} RunKeepsProgress(cfg: Config, w: World, es: seq<Event>)
    requires ProgressInv(w)
    ensures ProgressInv(Run(cfg, w, es))
  {
    if es != [] {
      RunKeepsProgress(cfg, w, es[..|es| - 1]);
      StepKeepsProgress(cfg, Run(cfg, w, es[..|es| - 1]), es[|es| - 1]);
    }
  }

  lemma FreshProgress(w: World)
    requires Fresh(w)
    ensures ProgressInv(w)
  {
    forall s ensures Progress(w, s) {}
  }

  // ---- Covered means handled --------------------------------------------------------------

  /** Only the last effect of a cycle moves a cursor, and it moves it to `max`. */
  lemma CursorMovesOnlyInAdvance(cfg: Config, w: World, s: StreamId, e: Event)
    requires CursorOf(Step(cfg, w, e), s) != CursorOf(w, s)
    ensures e.Effect? && e.s == s && PhaseOf(w, s).Advancing?
    ensures CursorOf(Step(cfg, w, e), s) == Some(PhaseOf(w, s).cy.max)
    ensures CursorOf(w, s).Some? ==> CursorOf(w, s).value < PhaseOf(w, s).cy.max
  {
    if e.Effect? {
      MoveCursorIsAdvancing(cfg, w, e.s, e.a);
    }
  }

  lemma MoveCursorIsAdvancing(cfg: Config, w: World, s: StreamId, a: Answer)
    ensures var d := MoveOf(cfg, w, s, a).does;
            d.MoveCursor? ==> PhaseOf(w, s) == Advancing(d.cy)
  {
  }

  /** Covered means handled: over every run, a stream's cursor changes only at the end of a
      cycle that got through its whole batch; it then becomes exactly the greatest time of
      the batch, it only grows, and every row of the batch that passes the cycle's own
      validation has been logged, or refused for good with nothing created; the others have
      been rejected. */
  lemma CoveredMeansHandled(cfg: Config, w: World, es: seq<Event>, e: Event, s: StreamId)
    requires Fresh(w)
    ensures var before, after := Run(cfg, w, es), Run(cfg, w, es + [e]);
            CursorOf(after, s) != CursorOf(before, s) ==>
              && PhaseOf(before, s).Advancing?
              && var cy := PhaseOf(before, s).cy;
                 && CursorOf(after, s) == Some(cy.max)
                 && (CursorOf(before, s).Some? ==> CursorOf(before, s).value < cy.max)
                 && HasTime(cy.batch, cy.max)
                 && (forall o :: o in cy.batch ==>
                       o.phenomenonTime <= cy.max && Dealt(after, s, cy.since, cy.horizon, o))
  {
    var before := Run(cfg, w, es);
    assert (es + [e])[..|es|] == es;
    if CursorOf(Step(cfg, before, e), s) != CursorOf(before, s) {
      FreshProgress(w);
      RunKeepsProgress(cfg, w, es);
      assert Progress(before, s);
      CursorMovesOnlyInAdvance(cfg, before, s, e);
      DeedKeepsHandled(cfg, before, s, MoveOf(cfg, before, s, e.a).does);
    }
  }

  /** From any world, a set cursor never moves back and never becomes unset. */
  lemma {:induction false} CursorNeverMovesBack(cfg: Config, w: World, es: seq<Event>, s: StreamId)
    requires CursorOf(w, s).Some?
    ensures CursorOf(Run(cfg, w, es), s).Some?
    ensures CursorOf(Run(cfg, w, es), s).value >= CursorOf(w, s).value
  {
    if es != [] {
      var mid := Run(cfg, w, es[..|es| - 1]);
      CursorNeverMovesBack(cfg, w, es[..|es| - 1], s);
      if CursorOf(Step(cfg, mid, es[|es| - 1]), s) != CursorOf(mid, s) {
        CursorMovesOnlyInAdvance(cfg, mid, s, es[|es| - 1]);
      }
    }
  }
}
