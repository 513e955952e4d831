/** What a write-log row says about the FROST servers: the attempt that recorded it got a
    definite answer from every target, and who holds the observation follows from them. */
module LogMeaning {
  import opened Canonical
  import opened Store
  import opened WritePath
  import opened AtMostOnce
  import V = Validator

  predicate Holds(w: World, cfg: Config, ids: seq<StaId>, t: Time, i: nat) {
    Copies(w, LabelAt(cfg, i), ObsKey(IdAt(ids, i), t)) >= 1
  }

  /** Every target that reported the observation created or present holds it. */
  predicate Backed(cfg: Config, w: World, ids: seq<StaId>, t: Time, replies: seq<Reply>) {
    forall i :: 0 <= i < |replies| && (replies[i].Created? || replies[i].Present?) ==> Holds(w, cfg, ids, t, i)
  }

  /** As long as nothing was created, a target that answered 409 holds nothing. */
  predicate ConflictsEmpty(cfg: Config, w: World, ids: seq<StaId>, t: Time, replies: seq<Reply>) {
    !Wrote(replies) ==>
      forall i :: 0 <= i < |replies| && replies[i].Conflict? ==> !Holds(w, cfg, ids, t, i)
  }

  /** Conflicts and creates only ever come from targets that were found empty. */
  predicate AttemptTrue(cfg: Config, w: World, s: StreamId) {
    var ph := PhaseOf(w, s);
    && (ph.Probing? || ph.Posting? || ph.Recording? ==>
          && Backed(cfg, w, ph.cy.ids, HeadTime(ph.cy), ph.replies)
          && ConflictsEmpty(cfg, w, ph.cy.ids, HeadTime(ph.cy), ph.replies))
    && (ph.Recording? ==> |ph.replies| == |cfg.labels| && !Dropped(ph.replies))
  }

  predicate RowTrue(cfg: Config, w: World, k: LogKey)
    requires k in w.hist.logged
  {
    var attempt := w.hist.logged[k];
    && |attempt.replies| == |cfg.labels|
    && OwnIds(cfg, k.stream, attempt.ids)
    && !Dropped(attempt.replies)
    && Backed(cfg, w, attempt.ids, k.time, attempt.replies)
  }

  ghost predicate LogInv(cfg: Config, w: World) {
    && Inv(cfg, w)
    && (forall s :: AttemptTrue(cfg, w, s))
    && (forall k :: k in w.hist.logged ==> RowTrue(cfg, w, k))
    && w.db.log.Keys <= w.hist.logged.Keys
  }

  // ---- One reply at a time ------------------------------------------------------------

  lemma WroteAppend(replies: seq<Reply>, r: Reply)
    ensures Wrote(replies + [r]) <==> Wrote(replies) || r.Created?
  {
    if Wrote(replies) {
      var i :| 0 <= i < |replies| && replies[i].Created?;
      assert (replies + [r])[i].Created?;
    }
    if r.Created? {
      assert (replies + [r])[|replies|].Created?;
    }
  }

  /** A reply that is true of its target extends a true attempt. */
  lemma BackedAppend(cfg: Config, w: World, w': World, cy: Cycle, replies: seq<Reply>, r: Reply)
    requires Backed(cfg, w, cy.ids, HeadTime(cy), replies)
    requires ConflictsEmpty(cfg, w, cy.ids, HeadTime(cy), replies)
    requires forall l, k :: Copies(w', l, k) >= Copies(w, l, k)
    requires r.Created? || r.Present? ==> Holds(w', cfg, cy.ids, HeadTime(cy), |replies|)
    requires r.Conflict? ==> !Holds(w', cfg, cy.ids, HeadTime(cy), |replies|)
    requires !r.Created? ==> w'.held == w.held
    ensures Backed(cfg, w', cy.ids, HeadTime(cy), replies + [r])
    ensures ConflictsEmpty(cfg, w', cy.ids, HeadTime(cy), replies + [r])
  {
    WroteAppend(replies, r);
    forall i | 0 <= i < |replies| && (replies[i].Created? || replies[i].Present?)
      ensures Holds(w', cfg, cy.ids, HeadTime(cy), i)
    {
      assert Holds(w, cfg, cy.ids, HeadTime(cy), i);
    }
    if !r.Created? {
      SameHeld(w, w');
    }
  }

  /** The reply an effect of the cycle appends, if it appends one. */
  function NewReply(cfg: Config, w: World, s: StreamId, a: Answer): Option<Reply> {
    var ph := PhaseOf(w, s);
    if ph.Probing? && a.ProbeAnswered?
       && Copies(w, LabelAt(cfg, |ph.replies|), KeyAt(ph.cy, |ph.replies|)) > 0 then Some(Present)
    else if ph.Probing? && a.ProbeRefused? then Some(Refused)
    else if ph.Posting? && a.PostCreated? then Some(Created(a.id))
    else if ph.Posting? && a.PostConflict? then Some(Conflict)
    else if ph.Posting? && a.PostRefused? then Some(Refused)
    else None
  }

  predicate HasReplies(ph: Phase) {
    ph.Probing? || ph.Posting? || ph.Recording?
  }

  /** Where the replies of phase `ph'` come from: an attempt just begun, the same attempt, or
      the same attempt with one more reply. */
  predicate Grown(cfg: Config, w: World, s: StreamId, a: Answer, ph': Phase)
    requires HasReplies(ph')
  {
    var ph, d := PhaseOf(w, s), MoveOf(cfg, w, s, a).does;
    var r := NewReply(cfg, w, s, a);
    || (ph.Checking? && ph'.cy == ph.cy && ph'.replies == [] && d == Nothing)
    || (HasReplies(ph) && ph'.cy == ph.cy
        && if r.None? then ph'.replies == ph.replies && d == Nothing else ph'.replies == ph.replies + [r.value])
  }

  lemma RepliesFromCheck(cfg: Config, w: World, s: StreamId, a: Answer)
    requires !HasReplies(PhaseOf(w, s))
    ensures var ph' := MoveOf(cfg, w, s, a).next; HasReplies(ph') ==> Grown(cfg, w, s, a, ph')
  {
  }

  lemma RepliesFromProbe(cfg: Config, w: World, s: StreamId, a: Answer)
    requires PhaseOf(w, s).Probing?
    ensures var ph' := MoveOf(cfg, w, s, a).next; HasReplies(ph') ==> Grown(cfg, w, s, a, ph')
  {
  }

  lemma RepliesFromPost(cfg: Config, w: World, s: StreamId, a: Answer)
    requires PhaseOf(w, s).Posting? || PhaseOf(w, s).Recording?
    ensures var ph' := MoveOf(cfg, w, s, a).next; HasReplies(ph') ==> Grown(cfg, w, s, a, ph')
  {
  }

  lemma RepliesGrowByOne(cfg: Config, w: World, s: StreamId, a: Answer)
    ensures var ph' := MoveOf(cfg, w, s, a).next; HasReplies(ph') ==> Grown(cfg, w, s, a, ph')
  {
    match PhaseOf(w, s)
    case Probing(_, _) => RepliesFromProbe(cfg, w, s, a);
    case Posting(_, _) => RepliesFromPost(cfg, w, s, a);
    case Recording(_, _) => RepliesFromPost(cfg, w, s, a);
    case _ => RepliesFromCheck(cfg, w, s, a);
  }

  lemma RecordingIsComplete(cfg: Config, w: World, s: StreamId, a: Answer)
    requires Shaped(cfg, s, PhaseOf(w, s)) && AttemptTrue(cfg, w, s)
    ensures var ph := MoveOf(cfg, w, s, a).next;
            ph.Recording? ==> |ph.replies| == |cfg.labels| && !Dropped(ph.replies)
  {
  }

  /** A new reply is true of the servers as the effect leaves them. */
  lemma NewReplyIsTrue(cfg: Config, w: World, s: StreamId, a: Answer)
    requires Clear(cfg, w, s) && NewReply(cfg, w, s, a).Some?
    ensures var ph, w', r := PhaseOf(w, s), EffectStep(cfg, w, s, a), NewReply(cfg, w, s, a).value;
            && (r.Created? || r.Present? ==> Holds(w', cfg, ph.cy.ids, HeadTime(ph.cy), |ph.replies|))
            && (r.Conflict? ==> !Holds(w', cfg, ph.cy.ids, HeadTime(ph.cy), |ph.replies|))
            && (!r.Created? ==> w'.held == w.held)
  {
    var ph, w' := PhaseOf(w, s), EffectStep(cfg, w, s, a);
    var d := MoveOf(cfg, w, s, a).does;
    DeedOnServers(cfg, w, s, d);
    MakeIsPost(cfg, w, s, a);
    if a.PostCreated? && ph.Posting? {
      CreateCounts(w, d.l, d.k);
      SameHeld(Create(w, d.l, d.k), w');
    }
  }

  lemma EffectKeepsAttempt(cfg: Config, w: World, s: StreamId, a: Answer)
    requires Clear(cfg, w, s) && AttemptTrue(cfg, w, s)
    ensures AttemptTrue(cfg, EffectStep(cfg, w, s, a), s)
  {
    var w' := EffectStep(cfg, w, s, a);
    var ph, ph' := PhaseOf(w, s), PhaseOf(w', s);
    EffectOnPhases(cfg, w, s, a);
    EffectFrame(cfg, w, s, a);
    RepliesGrowByOne(cfg, w, s, a);
    RecordingIsComplete(cfg, w, s, a);
    if ph'.Probing? || ph'.Posting? || ph'.Recording? {
      if ph.Checking? {
      } else if NewReply(cfg, w, s, a).Some? {
        NewReplyIsTrue(cfg, w, s, a);
        BackedAppend(cfg, w, w', ph.cy, ph.replies, NewReply(cfg, w, s, a).value);
      } else {
        SameHeld(w, w');
      }
    }
  }

  /** Another stream's effect cannot change what this stream's servers hold. */
  lemma OthersKeepAttempt(cfg: Config, w: World, w': World, s: StreamId)
    requires Clear(cfg, w, s) && AttemptTrue(cfg, w, s)
    requires PhaseOf(w', s) == PhaseOf(w, s)
    requires forall l: Label, k: ObsKey :: (l, k.datastream) in cfg.owner && cfg.owner[(l, k.datastream)] == s ==>
               Copies(w', l, k) == Copies(w, l, k)
    ensures AttemptTrue(cfg, w', s)
  {
  }

  // ---- Rows -----------------------------------------------------------------------------

  /** Rows enter the log only from Recording, with that attempt's replies. */
  lemma EffectOnLog(cfg: Config, w: World, s: StreamId, a: Answer)
    ensures var w', ph := EffectStep(cfg, w, s, a), PhaseOf(w, s);
            && w'.db.log.Keys <= w.db.log.Keys + w'.hist.logged.Keys
            && w.hist.logged.Keys <= w'.hist.logged.Keys
            && (w'.hist.logged == w.hist.logged
                || (ph.Recording?
                    && w'.hist.logged ==
                       w.hist.logged[LogKey(s, HeadTime(ph.cy)) := Attempt(ph.cy.ids, ph.replies)]))
  {
    var d := MoveOf(cfg, w, s, a).does;
    InsertIsRecording(cfg, w, s, a);
  }

  lemma InsertIsRecording(cfg: Config, w: World, s: StreamId, a: Answer)
    ensures var d := MoveOf(cfg, w, s, a).does;
            var ph := PhaseOf(w, s);
            d.Insert? ==> ph.Recording? && d.cy == ph.cy && d.replies == ph.replies
  {
  }

  lemma RowKept(cfg: Config, w: World, w': World, k: LogKey)
    requires k in w.hist.logged && RowTrue(cfg, w, k)
    requires k in w'.hist.logged && w'.hist.logged[k] == w.hist.logged[k]
    requires forall l, o :: Copies(w', l, o) >= Copies(w, l, o)
    ensures RowTrue(cfg, w', k)
  {
  }

  lemma EffectKeepsRows(cfg: Config, w: World, s: StreamId, a: Answer)
    requires LogInv(cfg, w)
    ensures var w' := EffectStep(cfg, w, s, a);
            forall k :: k in w'.hist.logged ==> RowTrue(cfg, w', k)
  {
    var w' := EffectStep(cfg, w, s, a);
    var ph := PhaseOf(w, s);
    assert Clear(cfg, w, s) && AttemptTrue(cfg, w, s);
    EffectFrame(cfg, w, s, a);
    EffectOnLog(cfg, w, s, a);
    forall k | k in w'.hist.logged ensures RowTrue(cfg, w', k) {
      if k in w.hist.logged && w'.hist.logged[k] == w.hist.logged[k] {
        RowKept(cfg, w, w', k);
      } else {
        forall i | 0 <= i < |ph.replies| && (ph.replies[i].Created? || ph.replies[i].Present?)
          ensures Holds(w', cfg, ph.cy.ids, k.time, i)
        {
          assert Holds(w, cfg, ph.cy.ids, k.time, i);
        }
      }
    }
  }

  lemma StepKeepsLogInv(cfg: Config, w: World, e: Event)
    requires LogInv(cfg, w) && OwnResolve(cfg, e)
    ensures LogInv(cfg, Step(cfg, w, e))
  {
    var w' := Step(cfg, w, e);
    StepKeepsInv(cfg, w, e);
    match e
    case Effect(s, a) =>
      assert Clear(cfg, w, s) && AttemptTrue(cfg, w, s);
      EffectKeepsAttempt(cfg, w, s, a);
      EffectKeepsRows(cfg, w, s, a);
      EffectOnLog(cfg, w, s, a);
      EffectOnPhases(cfg, w, s, a);
      EffectFrame(cfg, w, s, a);
      forall o ensures AttemptTrue(cfg, w', o) {
        if o != s {
          assert Clear(cfg, w, o) && AttemptTrue(cfg, w, o);
          OthersKeepAttempt(cfg, w, w', o);
        }
      }
    case _ =>
      SameHeld(w, w');
      forall o ensures AttemptTrue(cfg, w', o) {
        assert Clear(cfg, w, o) && AttemptTrue(cfg, w, o);
        if !e.Crash? { OthersKeepAttempt(cfg, w, w', o); }
      }
      forall k | k in w'.hist.logged ensures RowTrue(cfg, w', k) {
        RowKept(cfg, w, w', k);
      }
  }

  lemma {:induction false} RunKeepsLogInv(cfg: Config, w: World, es: seq<Event>)
    requires LogInv(cfg, w) && OwnResolves(cfg, es)
    ensures LogInv(cfg, Run(cfg, w, es))
  {
    if es != [] {
      var n := |es| - 1;
      assert forall i :: 0 <= i < n ==> es[..n][i] == es[i];
      RunKeepsLogInv(cfg, w, es[..n]);
      StepKeepsLogInv(cfg, Run(cfg, w, es[..n]), es[n]);
    }
  }

  lemma FreshLogInv(cfg: Config, w: World)
    requires Fresh(w) && Once(w)
    ensures LogInv(cfg, w)
  {
    forall s ensures Clear(cfg, w, s) && AttemptTrue(cfg, w, s) {}
  }

  // ---- Main results ---------------------------------------------------------------------

  /** Target `i` holds exactly the one copy the attempt behind `k` spoke of. */
  predicate HoldsOne(cfg: Config, w: World, k: LogKey, i: nat)
    requires k in w.hist.logged && i < |cfg.labels|
  {
    Copies(w, cfg.labels[i], ObsKey(IdAt(w.hist.logged[k].ids, i), k.time)) == 1
  }

  lemma BackedIsOne(cfg: Config, w: World, k: LogKey, i: nat)
    requires LogInv(cfg, w) && k in w.hist.logged && i < |cfg.labels|
    ensures var replies := w.hist.logged[k].replies;
            |replies| == |cfg.labels| && (replies[i].Created? || replies[i].Present? ==> HoldsOne(cfg, w, k, i))
  {
    assert RowTrue(cfg, w, k);
    var attempt := w.hist.logged[k];
    if attempt.replies[i].Created? || attempt.replies[i].Present? {
      assert Holds(w, cfg, attempt.ids, k.time, i);
    }
  }

  /** A row ever logged, purged since or not: its attempt had one definite answer from
      every target (a transient one ends the attempt before the INSERT), every target that
      answered created or present still holds exactly one copy, and some target does
      unless all of them answered the POST with 409 (or there is no target at all). */
  lemma LoggedMeansHeld(cfg: Config, w: World, es: seq<Event>, k: LogKey)
    requires Fresh(w) && Once(w) && OwnResolves(cfg, es)
    requires k in Run(cfg, w, es).hist.logged
    ensures var end := Run(cfg, w, es);
            var replies := end.hist.logged[k].replies;
            && |replies| == |cfg.labels|
            && (forall i :: 0 <= i < |cfg.labels| && (replies[i].Created? || replies[i].Present?) ==> HoldsOne(cfg, end, k, i))
            && ((forall i :: 0 <= i < |cfg.labels| ==> replies[i].Conflict?)
                || (exists i :: 0 <= i < |cfg.labels| && HoldsOne(cfg, end, k, i)))
  {
    FreshLogInv(cfg, w);
    RunKeepsLogInv(cfg, w, es);
    var end := Run(cfg, w, es);
    var replies := end.hist.logged[k].replies;
    assert RowTrue(cfg, end, k);
    forall i | 0 <= i < |cfg.labels| && (replies[i].Created? || replies[i].Present?) ensures HoldsOne(cfg, end, k, i) {
      BackedIsOne(cfg, end, k, i);
    }
    if i :| 0 <= i < |cfg.labels| && !replies[i].Conflict? {
      SomeLanded(replies, i);
    }
  }

  /** A reply list that was not dropped and is not all conflicts has a holder in it. */
  lemma SomeLanded(replies: seq<Reply>, i: nat)
    requires !Dropped(replies) && i < |replies| && !replies[i].Conflict?
    ensures exists j :: 0 <= j < |replies| && (replies[j].Created? || replies[j].Present?)
  {
  }

  /** When the INSERT is about to run, the observation is on some server exactly if there
      is a target that did not answer 409: the only row without data behind it is the one
      every target conflicted on. */
  lemma RecordedWithoutDataIffAllConflict(cfg: Config, w: World, es: seq<Event>, s: StreamId)
    requires Fresh(w) && Once(w) && OwnResolves(cfg, es)
    requires PhaseOf(Run(cfg, w, es), s).Recording?
    ensures var end := Run(cfg, w, es);
            var ph := PhaseOf(end, s);
            && |ph.replies| == |cfg.labels|
            && ((exists i :: 0 <= i < |cfg.labels| && Copies(end, LabelAt(cfg, i), KeyAt(ph.cy, i)) >= 1)
                <==> (exists i :: 0 <= i < |ph.replies| && !ph.replies[i].Conflict?))
  {
    FreshLogInv(cfg, w);
    RunKeepsLogInv(cfg, w, es);
    var end := Run(cfg, w, es);
    var ph := PhaseOf(end, s);
    assert AttemptTrue(cfg, end, s);
    if i :| 0 <= i < |ph.replies| && !ph.replies[i].Conflict? {
      SomeLanded(ph.replies, i);
      var j :| 0 <= j < |ph.replies| && (ph.replies[j].Created? || ph.replies[j].Present?);
      assert Holds(end, cfg, ph.cy.ids, HeadTime(ph.cy), j);
    } else {
      assert !Wrote(ph.replies);
      forall i | 0 <= i < |cfg.labels| ensures Copies(end, LabelAt(cfg, i), KeyAt(ph.cy, i)) < 1 {
        assert !Holds(end, cfg, ph.cy.ids, HeadTime(ph.cy), i);
      }
    }
  }

  /** A purged row is forgotten by the log but not by the history: the next attempt finds
      nothing and asks every target again. */
  lemma PurgedRowIsAskedAgain(cfg: Config, w: World, s: StreamId, cy: Cycle, cutoff: Time)
    requires PhaseOf(w, s) == Checking(cy)
    requires var k := LogKey(s, HeadTime(cy)); k in w.db.log && w.db.log[k].writtenAt < cutoff
    ensures var w' := Step(cfg, w, Purge(cutoff));
            && w'.hist == w.hist && w'.held == w.held
            && LogKey(s, HeadTime(cy)) !in w'.db.log
            && PhaseOf(Step(cfg, w, Effect(s, LogRead)), s) == Covered(cy)
            && PhaseOf(Step(cfg, w', Effect(s, LogRead)), s) == AfterReply(cfg, cy, [])
  {
    EffectOnPhases(cfg, w, s, LogRead);
    EffectOnPhases(cfg, Step(cfg, w, Purge(cutoff)), s, LogRead);
  }

  // A concrete row without data: one target, empty when probed, answers the POST with 409.

  const ONE_TARGET := Config(["fallback"], 0, 5, map[("fallback", 3) := 1])

  function OneReading(): Observation {
    Observation("bin", FILL_LEVEL, 7, 7, Number(1.0), None, "raw")
  }

  function ConflictCycle(): Cycle {
    Cycle(Poll, 5, 10, [OneReading()], [OneReading()], 5, [3])
  }

  function EmptyWorld(): World {
    World(Tables(map[1 := Row(None, None, None, 0)], map[]), map[], map[], 10, History({}, {}, map[], map[]))
  }

  /** The cycle up to the log check: the reading is fetched, kept, and its target resolved. */
  function OpeningRun(): seq<Event> {
    [Effect(1, CursorRead), Effect(1, Fetched([OneReading()])), Effect(1, Resolved([3]))]
  }

  /** The log check, the probe, the POST and the INSERT. */
  function ConflictRun(): seq<Event> {
    [Effect(1, LogRead), Effect(1, ProbeAnswered), Effect(1, PostConflict), Effect(1, RecordDone)]
  }

  lemma OpeningReachesChecking()
    ensures Run(ONE_TARGET, EmptyWorld(), OpeningRun()) == At(Checking(ConflictCycle()))
  {
    var o, es := OneReading(), OpeningRun();
    assert es[..2][..1] == es[..1] && es[..1][..0] == [];
    assert V.Passes(o, 5, 10, 0) && [o][..0] == [];
    assert V.Kept([o], 5, 10, 0) == [o] && V.Rejected([o], 5, 10, 0) == [];
    assert Run(ONE_TARGET, EmptyWorld(), es[..1]) == At(Fetching(5));
    assert Step(ONE_TARGET, At(Fetching(5)), es[1]) == At(Resolving(ConflictCycle().(ids := [])));
  }

  function At(ph: Phase): World {
    EmptyWorld().(phases := map[1 := ph])
  }

  lemma ProbeFindsNothing()
    ensures var cy := ConflictCycle();
            && Step(ONE_TARGET, At(Checking(cy)), Effect(1, LogRead)) == At(Probing(cy, []))
            && Step(ONE_TARGET, At(Probing(cy, [])), Effect(1, ProbeAnswered)) == At(Posting(cy, []))
  {
  }

  lemma PostConflicts()
    ensures var cy := ConflictCycle();
            Step(ONE_TARGET, At(Posting(cy, [])), Effect(1, PostConflict)) == At(Recording(cy, [Conflict]))
  {
    assert [] + [Conflict] == [Conflict];
    assert !Wrote([Conflict]) && Refused !in [Conflict];
  }

  lemma RowIsInserted()
    ensures var w := Step(ONE_TARGET, At(Recording(ConflictCycle(), [Conflict])), Effect(1, RecordDone));
            LogKey(1, 7) in w.db.log && w.held == map[]
  {
  }

  lemma RunFour(cfg: Config, w: World, es: seq<Event>)
    requires |es| == 4
    ensures Run(cfg, w, es) == Step(cfg, Step(cfg, Step(cfg, Step(cfg, w, es[0]), es[1]), es[2]), es[3])
  {
    assert es[..3][..2] == es[..2] && es[..2][..1] == es[..1] && es[..1][..0] == [];
    assert Run(cfg, w, es[..1]) == Step(cfg, w, es[0]);
    assert Run(cfg, w, es[..2]) == Step(cfg, Step(cfg, w, es[0]), es[1]);
  }

  /** In this run the row is logged, and no server holds anything. */
  lemma RowWithoutData()
    ensures var end := Run(ONE_TARGET, EmptyWorld(), OpeningRun() + ConflictRun());
            Fresh(EmptyWorld()) && LogKey(1, 7) in end.db.log && end.held == map[]
    ensures OwnResolves(ONE_TARGET, OpeningRun() + ConflictRun())
  {
    ConflictRunIsOwn();
    OpeningReachesChecking();
    RunAppend(ONE_TARGET, EmptyWorld(), OpeningRun(), ConflictRun());
    ConflictReachesLog();
  }

  lemma ConflictRunIsOwn()
    ensures OwnResolves(ONE_TARGET, OpeningRun() + ConflictRun())
  {
    var es := OpeningRun() + ConflictRun();
    assert LabelAt(ONE_TARGET, 0) == "fallback" && IdAt([3], 0) == 3;
    assert OwnIds(ONE_TARGET, 1, [3]);
    forall i | 0 <= i < |es| ensures OwnResolve(ONE_TARGET, es[i]) {
      assert es[i] == if i < 3 then OpeningRun()[i] else ConflictRun()[i - 3];
    }
  }

  lemma ConflictReachesLog()
    ensures var end := Run(ONE_TARGET, At(Checking(ConflictCycle())), ConflictRun());
            LogKey(1, 7) in end.db.log && end.held == map[]
  {
    RunFour(ONE_TARGET, At(Checking(ConflictCycle())), ConflictRun());
    ProbeFindsNothing();
    PostConflicts();
    RowIsInserted();
  }

  /** Dual write, retried: once a key is logged by an attempt no target refused or
      conflicted on, every target holds exactly one copy, however many earlier attempts
      failed half way and whatever they had already written. */
  lemma RetryCompletesEveryTarget(cfg: Config, w: World, es: seq<Event>, k: LogKey)
    requires Fresh(w) && Once(w) && OwnResolves(cfg, es)
    requires k in Run(cfg, w, es).hist.logged
    requires var replies := Run(cfg, w, es).hist.logged[k].replies; Refused !in replies && Conflict !in replies
    ensures forall i :: 0 <= i < |cfg.labels| ==> HoldsOne(cfg, Run(cfg, w, es), k, i)
  {
    FreshLogInv(cfg, w);
    RunKeepsLogInv(cfg, w, es);
    var end := Run(cfg, w, es);
    forall i | 0 <= i < |cfg.labels| ensures HoldsOne(cfg, end, k, i) {
      BackedIsOne(cfg, end, k, i);
      assert end.hist.logged[k].replies[i] in end.hist.logged[k].replies;
    }
  }
}
