/** Progress: a poll cycle whose own calls are all answered without a refusal, a conflict or
    a failure gets through, whatever happened before it and whatever else goes on meanwhile
    (ProcessStream and the cursor's move, internal/ingest/ingest.go,
    internal/scheduler/scheduler.go). */
module Completion {
  import opened Canonical
  import opened Store
  import opened WritePath
  import opened AtMostOnce
  import opened CursorMeaning
  import E = Environment
  import G = GapFree
  import V = Validator

  /** The answer that lets a cycle go on. */
  predicate Favourable(cfg: Config, ph: Phase, a: Answer) {
    match ph
    case Idle => true
    case Fetching(_) => true
    case Resolving(_) => a.Resolved? && |a.ids| == |cfg.labels|
    case Checking(_) => a.LogRead?
    case Probing(_, _) => a.ProbeAnswered?
    case Posting(_, _) => a.PostCreated?
    case Recording(_, _) => a.RecordDone?
    case Advancing(_) => a.AdvanceDone?
  }

  /** The process lives, and the effects of `s` are answered favourably. */
  predicate FavourableStep(cfg: Config, w: World, s: StreamId, e: Event) {
    && OwnResolve(cfg, e) && !e.Crash?
    && (e.Effect? && e.s == s ==> Favourable(cfg, PhaseOf(w, s), e.a))
  }

  predicate FavourableRun(cfg: Config, w: World, s: StreamId, es: seq<Event>) {
    forall i :: 0 <= i < |es| ==> FavourableStep(cfg, Run(cfg, w, es[..i]), s, es[i])
  }

  /** How many effects of `s` a run has. */
  function OwnEffects(es: seq<Event>, s: StreamId): nat {
    if es == [] then 0
    else OwnEffects(es[..|es| - 1], s) + if es[|es| - 1].Effect? && es[|es| - 1].s == s then 1 else 0
  }

  /** The most effects that one observation takes. */
  function PerRow(cfg: Config): nat {
    2 * |cfg.labels| + 2
  }

  /** The most effects that a cycle still takes. */
  function Left(cfg: Config, ph: Phase): int {
    match ph
    case Idle => 0
    case Fetching(_) => 1
    case Resolving(cy) => |cy.todo| * PerRow(cfg) + 2
    case Checking(cy) => |cy.todo| * PerRow(cfg) + 1
    case Probing(cy, replies) => (|cy.todo| - 1) * PerRow(cfg) + 2 * (|cfg.labels| - |replies|) + 2
    case Posting(cy, replies) => (|cy.todo| - 1) * PerRow(cfg) + 2 * (|cfg.labels| - |replies|) + 1
    case Recording(cy, _) => (|cy.todo| - 1) * PerRow(cfg) + 2
    case Advancing(_) => 1
  }

  // ---- What a cycle on course has done ----------------------------------------------------------

  /** Every target holds the instant under the given ids. */
  predicate OnTargets(cfg: Config, w: World, ids: seq<StaId>, t: Time) {
    forall i: nat :: i < |cfg.labels| ==> Copies(w, LabelAt(cfg, i), ObsKey(IdAt(ids, i), t)) > 0
  }

  /** ... or the log had the instant before the cycle began. */
  predicate Delivered(cfg: Config, w0: World, w: World, s: StreamId, ids: seq<StaId>, t: Time) {
    LogKey(s, t) in w0.db.log || OnTargets(cfg, w, ids, t)
  }

  predicate LogDelivered(cfg: Config, w0: World, w: World, s: StreamId, ids: seq<StaId>) {
    forall k :: k in w.db.log && k.stream == s ==> Delivered(cfg, w0, w, s, ids, k.time)
  }

  predicate RowsDelivered(cfg: Config, w0: World, w: World, s: StreamId, cy: Cycle) {
    forall o :: o in cy.batch && V.Passes(o, cy.since, cy.horizon, 0) && o !in cy.todo ==>
      LogKey(s, o.phenomenonTime) in w.hist.logged && Delivered(cfg, w0, w, s, cy.ids, o.phenomenonTime)
  }

  /** The targets that answered hold the observation being written. */
  predicate Replied(cfg: Config, w: World, cy: Cycle, replies: seq<Reply>) {
    && (forall i :: 0 <= i < |replies| ==> replies[i].Created? || replies[i].Present?)
    && (forall i: nat :: i < |replies| ==> Copies(w, LabelAt(cfg, i), KeyAt(cy, i)) > 0)
  }

  predicate RepliesFit(cfg: Config, w: World, ph: Phase) {
    && (ph.Probing? || ph.Posting? ==> |ph.replies| < |cfg.labels| && Replied(cfg, w, ph.cy, ph.replies))
    && (ph.Recording? ==> |ph.replies| == |cfg.labels| && Replied(cfg, w, ph.cy, ph.replies))
  }

  predicate NothingDone(w0: World, w: World, s: StreamId, cy: Cycle) {
    && (forall k :: k in w.db.log && k.stream == s ==> k in w0.db.log)
    && (forall o :: o in cy.batch && V.Passes(o, cy.since, cy.horizon, 0) ==> o in cy.todo)
  }

  /** The cycle that began as `cy0` is under way. */
  predicate OnCourse(cfg: Config, w0: World, w: World, s: StreamId, cy0: Cycle) {
    var ph := PhaseOf(w, s);
    && HasCycle(ph) && G.SameFetch(cy0, ph.cy)
    && s in w.db.rows && CursorOf(w, s) == CursorOf(w0, s)
    && RepliesFit(cfg, w, ph)
    && (if ph.Resolving? then NothingDone(w0, w, s, ph.cy)
        else LogDelivered(cfg, w0, w, s, ph.cy.ids) && RowsDelivered(cfg, w0, w, s, ph.cy))
  }

  /** Where the cursor is when the batch has been covered. */
  function CursorAfter(before: Option<Time>, since: Time, batch: seq<Observation>): Option<Time> {
    var m := MaxTime(batch, since);
    if m <= since || (before.Some? && before.value >= m) then before else Some(m)
  }

  /** The cycle is over: the cursor stands at the newest time of the batch, and every row
      that passed is logged, and on every target unless it had been logged before. */
  predicate Ended(cfg: Config, w0: World, w: World, s: StreamId, cy0: Cycle, ids: seq<StaId>) {
    && PhaseOf(w, s) == Idle
    && CursorOf(w, s) == CursorAfter(CursorOf(w0, s), cy0.since, cy0.batch)
    && (forall o :: o in cy0.batch && V.Passes(o, cy0.since, cy0.horizon, 0) ==>
          LogKey(s, o.phenomenonTime) in w.hist.logged && Delivered(cfg, w0, w, s, ids, o.phenomenonTime))
  }

  // ---- The effects of other streams, the clock and purges ---------------------------------------

  ghost predicate NoLess(w: World, w': World) {
    && (forall l, k :: Copies(w', l, k) >= Copies(w, l, k))
    && w.hist.logged.Keys <= w'.hist.logged.Keys
  }

  lemma DeliveredAcross(cfg: Config, w0: World, w: World, w': World, s: StreamId, cy: Cycle)
    requires NoLess(w, w') && (forall k :: k in w'.db.log && k.stream == s ==> k in w.db.log)
    requires LogDelivered(cfg, w0, w, s, cy.ids) && RowsDelivered(cfg, w0, w, s, cy)
    ensures LogDelivered(cfg, w0, w', s, cy.ids) && RowsDelivered(cfg, w0, w', s, cy)
  {
  }

  lemma CourseAcross(cfg: Config, w0: World, w: World, w': World, s: StreamId, cy0: Cycle)
    requires OnCourse(cfg, w0, w, s, cy0) && NoLess(w, w')
    requires PhaseOf(w', s) == PhaseOf(w, s) && CursorOf(w', s) == CursorOf(w, s) && s in w'.db.rows
    requires forall k :: k in w'.db.log && k.stream == s ==> k in w.db.log
    ensures OnCourse(cfg, w0, w', s, cy0)
  {
    if !PhaseOf(w, s).Resolving? {
      DeliveredAcross(cfg, w0, w, w', s, PhaseOf(w, s).cy);
    }
  }

  lemma DeedOnLog(cfg: Config, w: World, s: StreamId, d: Deed)
    ensures forall k :: k in Perform(cfg, w, s, d).db.log && k !in w.db.log ==>
              d.Insert? && d.cy.todo != [] && k == LogKey(s, HeadTime(d.cy))
  {
  }

  lemma OthersKeepCourse(cfg: Config, w0: World, w: World, e: Event, s: StreamId, cy0: Cycle)
    requires Inv(cfg, w) && OnCourse(cfg, w0, w, s, cy0) && E.Foreign(cfg, s, e)
    ensures OnCourse(cfg, w0, Step(cfg, w, e), s, cy0)
  {
    E.ForeignStep(cfg, w, e, s);
    if e.Effect? {
      assert Clear(cfg, w, e.s);
      EffectFrame(cfg, w, e.s, e.a);
      DeedOnLog(cfg, w, e.s, MoveOf(cfg, w, e.s, e.a).does);
    } else {
      SameHeld(w, Step(cfg, w, e));
    }
    CourseAcross(cfg, w0, w, Step(cfg, w, e), s, cy0);
  }

  // ---- The cycle's own effects ----------------------------------------------------------------------

  /** One more row has been covered. */
  lemma CoveredRow(cfg: Config, w0: World, w: World, s: StreamId, cy: Cycle)
    requires cy.todo != [] && LogDelivered(cfg, w0, w, s, cy.ids) && RowsDelivered(cfg, w0, w, s, cy)
    requires LogKey(s, HeadTime(cy)) in w.hist.logged && Delivered(cfg, w0, w, s, cy.ids, HeadTime(cy))
    ensures RowsDelivered(cfg, w0, w, s, cy.(todo := cy.todo[1..], max := Max(cy.max, cy.todo[0].phenomenonTime)))
  {
    assert forall o :: o in cy.todo && o !in cy.todo[1..] ==> o == cy.todo[0];
  }

  /** A cycle that ends without moving the cursor had nothing newer than its start. */
  lemma IdleMeansNothingNewer(w: World, s: StreamId, cy: Cycle)
    requires CycleTrue(w, s, cy) && cy.todo != [] && cy.mode.Poll? && Covered(cy) == Idle
    ensures MaxTime(cy.batch, cy.since) == cy.since
  {
    G.MaxTimeIsMax(cy.batch, cy.since);
    assert cy.todo == [cy.todo[0]] + cy.todo[1..];
    if HasTime(cy.batch, MaxTime(cy.batch, cy.since)) {
      var i :| 0 <= i < |cy.batch| && cy.batch[i].phenomenonTime == MaxTime(cy.batch, cy.since);
      assert cy.batch[i] in cy.batch;
    }
  }

  /** Where a covered row leaves the cycle. */
  lemma CoveredStays(cfg: Config, w0: World, w: World, w': World, s: StreamId, cy0: Cycle, cy: Cycle)
    requires CycleTrue(w, s, cy) && cy.todo != [] && cy.mode.Poll? && G.SameFetch(cy0, cy)
    requires PhaseOf(w', s) == Covered(cy) && s in w'.db.rows && CursorOf(w', s) == CursorOf(w0, s)
    requires LogDelivered(cfg, w0, w', s, cy.ids) && RowsDelivered(cfg, w0, w', s, cy)
    requires LogKey(s, HeadTime(cy)) in w'.hist.logged && Delivered(cfg, w0, w', s, cy.ids, HeadTime(cy))
    ensures OnCourse(cfg, w0, w', s, cy0) || Ended(cfg, w0, w', s, cy0, cy.ids)
  {
    CoveredRow(cfg, w0, w', s, cy);
    if Covered(cy) == Idle {
      IdleMeansNothingNewer(w, s, cy);
    }
  }

  lemma ResolvingStays(cfg: Config, w0: World, w: World, s: StreamId, cy0: Cycle, a: Answer)
    requires OnCourse(cfg, w0, w, s, cy0) && PhaseOf(w, s).Resolving? && Favourable(cfg, PhaseOf(w, s), a)
    ensures OnCourse(cfg, w0, EffectStep(cfg, w, s, a), s, cy0)
  {
    var w' := EffectStep(cfg, w, s, a);
    EffectOnPhases(cfg, w, s, a);
    assert w'.db == w.db && w'.hist == w.hist;
  }

  /** A quiet effect changes nothing but the phase. */
  predicate Quiet(w: World, w': World) {
    w'.db == w.db && w'.held == w.held && w'.hist == w.hist
  }

  lemma QuietStays(cfg: Config, w0: World, w: World, w': World, s: StreamId, cy: Cycle)
    requires LogDelivered(cfg, w0, w, s, cy.ids) && RowsDelivered(cfg, w0, w, s, cy) && Quiet(w, w')
    ensures LogDelivered(cfg, w0, w', s, cy.ids) && RowsDelivered(cfg, w0, w', s, cy)
  {
    SameHeld(w, w');
    DeliveredAcross(cfg, w0, w, w', s, cy);
  }

  lemma CheckingStays(cfg: Config, w0: World, w: World, s: StreamId, cy0: Cycle, a: Answer)
    requires OnCourse(cfg, w0, w, s, cy0) && Progress(w, s) && w.db.log.Keys <= w.hist.logged.Keys
    requires PhaseOf(w, s).Checking? && Favourable(cfg, PhaseOf(w, s), a) && PhaseOf(w, s).cy.mode.Poll?
    ensures var w' := EffectStep(cfg, w, s, a);
            OnCourse(cfg, w0, w', s, cy0) || Ended(cfg, w0, w', s, cy0, PhaseOf(w, s).cy.ids)
  {
    var cy, w' := PhaseOf(w, s).cy, EffectStep(cfg, w, s, a);
    EffectOnPhases(cfg, w, s, a);
    QuietStays(cfg, w0, w, w', s, cy);
    if LogKey(s, HeadTime(cy)) in w.db.log {
      CoveredStays(cfg, w0, w, w', s, cy0, cy);
    }
  }

  /** All favourable replies, so nothing is dropped. */
  lemma NotDropped(cfg: Config, w: World, cy: Cycle, replies: seq<Reply>)
    requires Replied(cfg, w, cy, replies)
    ensures !Dropped(replies)
  {
  }

  lemma RepliedOneMore(cfg: Config, w: World, w': World, cy: Cycle, replies: seq<Reply>, r: Reply)
    requires Replied(cfg, w, cy, replies) && (r.Created? || r.Present?)
    requires forall l, k :: Copies(w', l, k) >= Copies(w, l, k)
    requires Copies(w', LabelAt(cfg, |replies|), KeyAt(cy, |replies|)) > 0
    ensures Replied(cfg, w', cy, replies + [r])
  {
  }

  lemma ProbingStays(cfg: Config, w0: World, w: World, s: StreamId, cy0: Cycle, a: Answer)
    requires OnCourse(cfg, w0, w, s, cy0) && PhaseOf(w, s).Probing? && a.ProbeAnswered?
    ensures OnCourse(cfg, w0, EffectStep(cfg, w, s, a), s, cy0)
  {
    var ph, w' := PhaseOf(w, s), EffectStep(cfg, w, s, a);
    EffectOnPhases(cfg, w, s, a);
    if Copies(w, LabelAt(cfg, |ph.replies|), KeyAt(ph.cy, |ph.replies|)) > 0 {
      RepliedOneMore(cfg, w, w, ph.cy, ph.replies, Present);
      NotDropped(cfg, w, ph.cy, ph.replies + [Present]);
    }
    assert Quiet(w, w');
    QuietStays(cfg, w0, w, w', s, ph.cy);
    SameHeld(w, w');
  }

  lemma PostingStays(cfg: Config, w0: World, w: World, s: StreamId, cy0: Cycle, a: Answer)
    requires OnCourse(cfg, w0, w, s, cy0) && PhaseOf(w, s).Posting? && a.PostCreated? && Clear(cfg, w, s)
    ensures OnCourse(cfg, w0, EffectStep(cfg, w, s, a), s, cy0)
  {
    var ph, w' := PhaseOf(w, s), EffectStep(cfg, w, s, a);
    var l, k := LabelAt(cfg, |ph.replies|), KeyAt(ph.cy, |ph.replies|);
    EffectOnPhases(cfg, w, s, a);
    EffectFrame(cfg, w, s, a);
    CreateCounts(w, l, k);
    SameHeld(Create(w, l, k), w');
    RepliedOneMore(cfg, w, w', ph.cy, ph.replies, Created(a.id));
    NotDropped(cfg, w', ph.cy, ph.replies + [Created(a.id)]);
    DeliveredAcross(cfg, w0, w, w', s, ph.cy);
  }

  lemma RecordingStays(cfg: Config, w0: World, w: World, s: StreamId, cy0: Cycle, a: Answer)
    requires OnCourse(cfg, w0, w, s, cy0) && Progress(w, s) && w.db.log.Keys <= w.hist.logged.Keys
    requires PhaseOf(w, s).Recording? && a.RecordDone? && PhaseOf(w, s).cy.mode.Poll?
    ensures var w' := EffectStep(cfg, w, s, a);
            OnCourse(cfg, w0, w', s, cy0) || Ended(cfg, w0, w', s, cy0, PhaseOf(w, s).cy.ids)
  {
    var ph, w' := PhaseOf(w, s), EffectStep(cfg, w, s, a);
    var k := LogKey(s, HeadTime(ph.cy));
    EffectOnPhases(cfg, w, s, a);
    E.RecordEffect(cfg, w, s, ph.cy, ph.replies, a);
    SameHeld(w, w');
    DeedKeepsHandled(cfg, w, s, Insert(ph.cy, ph.replies));
    DeedOnLog(cfg, w, s, Insert(ph.cy, ph.replies));
    assert OnTargets(cfg, w', ph.cy.ids, HeadTime(ph.cy)) by {
      forall i: nat | i < |cfg.labels|
        ensures Copies(w', LabelAt(cfg, i), ObsKey(IdAt(ph.cy.ids, i), HeadTime(ph.cy))) > 0
      {
        assert KeyAt(ph.cy, i) == ObsKey(IdAt(ph.cy.ids, i), HeadTime(ph.cy));
      }
    }
    LogStaysDelivered(cfg, w0, w, w', s, ph.cy, k);
    CoveredStays(cfg, w0, w, w', s, cy0, ph.cy);
  }

  lemma LogStaysDelivered(cfg: Config, w0: World, w: World, w': World, s: StreamId, cy: Cycle, key: LogKey)
    requires NoLess(w, w') && (forall k :: k in w'.db.log && k !in w.db.log ==> k == key)
    requires LogDelivered(cfg, w0, w, s, cy.ids) && RowsDelivered(cfg, w0, w, s, cy)
    requires OnTargets(cfg, w', cy.ids, key.time)
    ensures LogDelivered(cfg, w0, w', s, cy.ids) && RowsDelivered(cfg, w0, w', s, cy)
  {
  }

  lemma AdvancingEnds(cfg: Config, w0: World, w: World, s: StreamId, cy0: Cycle, a: Answer)
    requires OnCourse(cfg, w0, w, s, cy0) && Progress(w, s) && PhaseOf(w, s).Advancing? && a.AdvanceDone?
    ensures Ended(cfg, w0, EffectStep(cfg, w, s, a), s, cy0, PhaseOf(w, s).cy.ids)
  {
    var cy, w' := PhaseOf(w, s).cy, EffectStep(cfg, w, s, a);
    EffectOnPhases(cfg, w, s, a);
    E.AdvanceEffect(cfg, w, s, cy, a);
    G.FinishedMaxIsNewest(w, s);
    SameHeld(w, w');
  }

  /** Each favourable effect keeps the cycle on course, or ends it as promised. */
  lemma OwnEffectStays(cfg: Config, w0: World, w: World, s: StreamId, cy0: Cycle, a: Answer)
    requires Clear(cfg, w, s) && Progress(w, s) && w.db.log.Keys <= w.hist.logged.Keys
    requires OnCourse(cfg, w0, w, s, cy0) && cy0.mode.Poll? && Favourable(cfg, PhaseOf(w, s), a)
    ensures var w' := EffectStep(cfg, w, s, a);
            OnCourse(cfg, w0, w', s, cy0) || Ended(cfg, w0, w', s, cy0, PhaseOf(w, s).cy.ids)
  {
    match PhaseOf(w, s) {
      case Resolving(_) => ResolvingStays(cfg, w0, w, s, cy0, a);
      case Checking(_) => CheckingStays(cfg, w0, w, s, cy0, a);
      case Probing(_, _) => ProbingStays(cfg, w0, w, s, cy0, a);
      case Posting(_, _) => PostingStays(cfg, w0, w, s, cy0, a);
      case Recording(_, _) => RecordingStays(cfg, w0, w, s, cy0, a);
      case Advancing(_) => AdvancingEnds(cfg, w0, w, s, cy0, a);
    }
  }

  // ---- The cycle gets there -------------------------------------------------------------------------

  lemma CoveredIsShorter(cfg: Config, cy: Cycle)
    requires cy.todo != []
    ensures Left(cfg, Covered(cy)) <= (|cy.todo| - 1) * PerRow(cfg) + 1
  {
  }

  lemma ReplyIsShorter(cfg: Config, w: World, cy: Cycle, replies: seq<Reply>)
    requires |replies| <= |cfg.labels| && Replied(cfg, w, cy, replies)
    ensures Left(cfg, AfterReply(cfg, cy, replies)) <= (|cy.todo| - 1) * PerRow(cfg) + 2 * (|cfg.labels| - |replies|) + 2
  {
    NotDropped(cfg, w, cy, replies);
  }

  lemma CheckIsProgress(cfg: Config, w: World, s: StreamId)
    requires PhaseOf(w, s).Checking? && PhaseOf(w, s).cy.todo != []
    ensures Left(cfg, MoveOf(cfg, w, s, LogRead).next) < Left(cfg, PhaseOf(w, s))
  {
    var cy := PhaseOf(w, s).cy;
    CoveredIsShorter(cfg, cy);
    RowsTake(cfg, |cy.todo|);
    ReplyIsShorter(cfg, w, cy, []);
  }

  lemma ProbeIsProgress(cfg: Config, w: World, s: StreamId)
    requires RepliesFit(cfg, w, PhaseOf(w, s)) && PhaseOf(w, s).Probing?
    ensures Left(cfg, MoveOf(cfg, w, s, ProbeAnswered).next) < Left(cfg, PhaseOf(w, s))
  {
    var cy, replies := PhaseOf(w, s).cy, PhaseOf(w, s).replies;
    if Copies(w, LabelAt(cfg, |replies|), KeyAt(cy, |replies|)) > 0 {
      RepliedOneMore(cfg, w, w, cy, replies, Present);
      ReplyIsShorter(cfg, w, cy, replies + [Present]);
    }
  }

  lemma PostIsProgress(cfg: Config, w: World, s: StreamId, id: int)
    requires RepliesFit(cfg, w, PhaseOf(w, s)) && PhaseOf(w, s).Posting?
    ensures Left(cfg, MoveOf(cfg, w, s, PostCreated(id)).next) < Left(cfg, PhaseOf(w, s))
  {
    var cy, replies := PhaseOf(w, s).cy, PhaseOf(w, s).replies;
    var w' := Create(w, LabelAt(cfg, |replies|), KeyAt(cy, |replies|));
    CreateCounts(w, LabelAt(cfg, |replies|), KeyAt(cy, |replies|));
    RepliedOneMore(cfg, w, w', cy, replies, Created(id));
    ReplyIsShorter(cfg, w', cy, replies + [Created(id)]);
  }

  /** Each favourable effect brings the cycle nearer to its end. */
  lemma EffectIsProgress(cfg: Config, w: World, s: StreamId, a: Answer)
    requires Clear(cfg, w, s) && RepliesFit(cfg, w, PhaseOf(w, s)) && s in w.db.rows
    requires HasCycle(PhaseOf(w, s)) && Favourable(cfg, PhaseOf(w, s), a)
    ensures Left(cfg, PhaseOf(EffectStep(cfg, w, s, a), s)) < Left(cfg, PhaseOf(w, s))
  {
    EffectOnPhases(cfg, w, s, a);
    var ph := PhaseOf(w, s);
    match ph {
      case Probing(_, _) => ProbeIsProgress(cfg, w, s);
      case Posting(_, _) => PostIsProgress(cfg, w, s, a.id);
      case Resolving(cy) => RowsTake(cfg, |cy.todo|);
      case Checking(cy) => CheckIsProgress(cfg, w, s);
      case Recording(cy, _) => CoveredIsShorter(cfg, cy);
      case Advancing(_) =>
    }
  }

  lemma RowsTake(cfg: Config, n: int)
    ensures n * PerRow(cfg) == (n - 1) * PerRow(cfg) + PerRow(cfg)
  {
  }

  lemma LeftIsPositive(cfg: Config, w: World, s: StreamId)
    requires Clear(cfg, w, s) && HasCycle(PhaseOf(w, s))
    ensures Left(cfg, PhaseOf(w, s)) > 0
  {
    if !PhaseOf(w, s).Advancing? {
      NoFewerThanNone(|PhaseOf(w, s).cy.todo| - 1, PerRow(cfg));
    }
  }

  lemma NoFewerThanNone(n: int, p: int)
    requires n >= 0 && p >= 0
    ensures n * p >= 0 && (n + 1) * p >= 0
  {
  }

  /** After `n` events the cycle is under way, and each effect of its stream has used up one
      of those it was given. */
  ghost predicate UnderWay(cfg: Config, w0: World, es: seq<Event>, s: StreamId, cy0: Cycle, n: nat)
    requires n <= |es|
  {
    var w := Run(cfg, w0, es[..n]);
    && Inv(cfg, w) && ProgressInv(w) && OnCourse(cfg, w0, w, s, cy0)
    && Left(cfg, PhaseOf(w, s)) + OwnEffects(es[..n], s) <= Left(cfg, PhaseOf(w0, s))
  }

  lemma NextEvent(cfg: Config, w0: World, es: seq<Event>, s: StreamId, cy0: Cycle, n: nat)
    returns (over: bool, ids: seq<StaId>)
    requires n < |es| && UnderWay(cfg, w0, es, s, cy0, n) && cy0.mode.Poll?
    requires FavourableStep(cfg, Run(cfg, w0, es[..n]), s, es[n])
    ensures if over then Ended(cfg, w0, Run(cfg, w0, es[..n + 1]), s, cy0, ids)
            else UnderWay(cfg, w0, es, s, cy0, n + 1)
  {
    var w := Run(cfg, w0, es[..n]);
    assert es[..n + 1][..n] == es[..n];
    ids := PhaseOf(w, s).cy.ids;
    OneMoreEvent(cfg, w0, w, es[n], s, cy0);
    over := Ended(cfg, w0, Run(cfg, w0, es[..n + 1]), s, cy0, ids);
  }

  /** After `n` events the cycle has ended at one of them, or it is under way. */
  lemma {:induction false} StaysOnCourse(cfg: Config, w0: World, es: seq<Event>, s: StreamId, cy0: Cycle, n: nat)
    returns (over: bool, k: nat, ids: seq<StaId>)
    requires UnderWay(cfg, w0, es, s, cy0, 0) && cy0.mode.Poll? && FavourableRun(cfg, w0, s, es) && n <= |es|
    ensures k <= n
    ensures if over then Ended(cfg, w0, Run(cfg, w0, es[..k]), s, cy0, ids) else UnderWay(cfg, w0, es, s, cy0, n)
  {
    over, k, ids := false, n, [];
    if n > 0 {
      over, k, ids := StaysOnCourse(cfg, w0, es, s, cy0, n - 1);
      if !over {
        k := n;
        over, ids := NextEvent(cfg, w0, es, s, cy0, n - 1);
      }
    }
  }

  lemma OneMoreEvent(cfg: Config, w0: World, w: World, e: Event, s: StreamId, cy0: Cycle)
    requires Inv(cfg, w) && ProgressInv(w) && OnCourse(cfg, w0, w, s, cy0) && cy0.mode.Poll?
    requires FavourableStep(cfg, w, s, e)
    ensures var w' := Step(cfg, w, e);
            || Ended(cfg, w0, w', s, cy0, PhaseOf(w, s).cy.ids)
            || (&& Inv(cfg, w') && ProgressInv(w') && OnCourse(cfg, w0, w', s, cy0)
                && Left(cfg, PhaseOf(w', s)) + (if e.Effect? && e.s == s then 1 else 0) <= Left(cfg, PhaseOf(w, s)))
  {
    StepKeepsInv(cfg, w, e);
    StepKeepsProgress(cfg, w, e);
    assert Clear(cfg, w, s) && Progress(w, s);
    if e.Effect? && e.s == s {
      OwnEffectStays(cfg, w0, w, s, cy0, e.a);
      EffectIsProgress(cfg, w, s, e.a);
    } else {
      OthersKeepCourse(cfg, w0, w, e, s, cy0);
      E.ForeignStep(cfg, w, e, s);
    }
  }

  /** Every target holds the instant exactly once. */
  predicate OnceOnTargets(cfg: Config, w: World, ids: seq<StaId>, t: Time) {
    forall i: nat :: i < |cfg.labels| ==> Copies(w, LabelAt(cfg, i), ObsKey(IdAt(ids, i), t)) == 1
  }

  /** From any reachable world in which a fetch has just been answered: once its stream has
      taken as many effects as the cycle can need, all answered without a refusal, a
      conflict or a failure, the cycle has ended at some event, with the cursor at the
      newest time of the batch, every row that passed logged, and exactly one copy of it on
      every target unless the log had it before. */
  lemma CycleCompletes(
    cfg: Config, first: World, before: seq<Event>, es: seq<Event>, s: StreamId, since: Time, batch: seq<Observation>)
    returns (k: nat, ids: seq<StaId>)
    requires Fresh(first) && Once(first) && OwnResolves(cfg, before)
    requires var w := Run(cfg, first, before);
             && PhaseOf(w, s) == Start(cfg, Poll, since, batch, w.clock) && s in w.db.rows
             && FavourableRun(cfg, w, s, es) && OwnEffects(es, s) >= Left(cfg, PhaseOf(w, s))
    ensures k <= |es|
    ensures var w, end := Run(cfg, first, before), Run(cfg, Run(cfg, first, before), es[..k]);
            && PhaseOf(end, s) == Idle
            && CursorOf(end, s) == CursorAfter(CursorOf(w, s), since, batch)
            && forall o :: o in batch && V.Passes(o, since, w.clock, cfg.skew) ==>
                 && LogKey(s, o.phenomenonTime) in end.hist.logged
                 && (LogKey(s, o.phenomenonTime) in w.db.log || OnceOnTargets(cfg, end, ids, o.phenomenonTime))
  {
    var w := Run(cfg, first, before);
    Reachable(cfg, first, before);
    var cy := FirstCycle(cfg, Poll, since, batch, w.clock);
    if PhaseOf(w, s) == Idle {
      k, ids := 0, [];
      NothingToDo(cfg, w, s, since, batch);
      assert es[..0] == [];
    } else {
      BeginsOnCourse(cfg, w, s, cy, since, batch);
      assert es[..0] == [] && es[..|es|] == es;
      assert UnderWay(cfg, w, es, s, cy, 0);
      var over;
      over, k, ids := StaysOnCourse(cfg, w, es, s, cy, |es|);
      if !over {
        UsedUp(cfg, w, es, s, cy);
        assert false;
      }
      OnlyOnce(cfg, first, before, es, s, k, ids);
    }
  }

  function NextAnswer(ph: Phase, ids: seq<StaId>): Answer {
    match ph
    case Resolving(_) => Resolved(ids)
    case Checking(_) => LogRead
    case Probing(_, _) => ProbeAnswered
    case Posting(_, _) => PostCreated(0)
    case Recording(_, _) => RecordDone
    case Advancing(_) => AdvanceDone
    case _ => CursorFailed
  }

  /** There are such runs, of any length, in every world. */
  lemma {:induction false} FavourableRunsExist(cfg: Config, w: World, s: StreamId, ids: seq<StaId>, n: nat)
    returns (es: seq<Event>)
    requires |ids| == |cfg.labels| && OwnIds(cfg, s, ids)
    ensures FavourableRun(cfg, w, s, es) && OwnEffects(es, s) == n
  {
    es := [];
    if n > 0 {
      var before := FavourableRunsExist(cfg, w, s, ids, n - 1);
      var e := Effect(s, NextAnswer(PhaseOf(Run(cfg, w, before), s), ids));
      OneMoreFavourable(cfg, w, s, before, e);
      es := before + [e];
      assert es[..|before|] == before;
    }
  }

  lemma OneMoreFavourable(cfg: Config, w: World, s: StreamId, es: seq<Event>, e: Event)
    requires FavourableRun(cfg, w, s, es) && FavourableStep(cfg, Run(cfg, w, es), s, e)
    ensures FavourableRun(cfg, w, s, es + [e])
  {
    forall i | 0 <= i < |es + [e]| ensures FavourableStep(cfg, Run(cfg, w, (es + [e])[..i]), s, (es + [e])[i]) {
      assert (es + [e])[..i] == if i < |es| then es[..i] else es;
    }
  }

  lemma UsedUp(cfg: Config, w: World, es: seq<Event>, s: StreamId, cy: Cycle)
    requires UnderWay(cfg, w, es, s, cy, |es|)
    ensures OwnEffects(es, s) < Left(cfg, PhaseOf(w, s))
  {
    assert es[..|es|] == es;
    assert Clear(cfg, Run(cfg, w, es), s);
    LeftIsPositive(cfg, Run(cfg, w, es), s);
  }

  lemma Reachable(cfg: Config, first: World, before: seq<Event>)
    requires Fresh(first) && Once(first) && OwnResolves(cfg, before)
    ensures Inv(cfg, Run(cfg, first, before)) && ProgressInv(Run(cfg, first, before))
  {
    forall s ensures Clear(cfg, first, s) {}
    RunKeepsInv(cfg, first, before);
    FreshProgress(first);
    RunKeepsProgress(cfg, first, before);
  }

  /** A batch of which nothing passes ends at once, unless it moves the cursor. */
  lemma NothingToDo(cfg: Config, w: World, s: StreamId, since: Time, batch: seq<Observation>)
    requires Start(cfg, Poll, since, batch, w.clock) == Idle
    ensures MaxTime(batch, since) == since
    ensures forall o :: o in batch ==> !V.Passes(o, since, w.clock, cfg.skew)
  {
    V.KeptMembers(batch, since, w.clock, cfg.skew);
    StartIsTrue(cfg, w, s, Poll, since, batch);
    G.MaxTimeIsMax(batch, since);
    if HasTime(batch, MaxTime(batch, since)) {
      var i :| 0 <= i < |batch| && batch[i].phenomenonTime == MaxTime(batch, since);
      assert batch[i] in batch;
    }
  }

  lemma BeginsOnCourse(cfg: Config, w: World, s: StreamId, cy: Cycle, since: Time, batch: seq<Observation>)
    requires cy == FirstCycle(cfg, Poll, since, batch, w.clock) && s in w.db.rows
    requires PhaseOf(w, s) == Start(cfg, Poll, since, batch, w.clock) && PhaseOf(w, s) != Idle
    ensures OnCourse(cfg, w, w, s, cy)
  {
    V.KeptMembers(batch, since, w.clock, cfg.skew);
  }

  lemma OnlyOnce(cfg: Config, first: World, before: seq<Event>, es: seq<Event>, s: StreamId, k: nat, ids: seq<StaId>)
    requires Fresh(first) && Once(first) && OwnResolves(cfg, before)
    requires FavourableRun(cfg, Run(cfg, first, before), s, es) && k <= |es|
    ensures var end := Run(cfg, Run(cfg, first, before), es[..k]);
            forall t :: OnTargets(cfg, end, ids, t) ==> OnceOnTargets(cfg, end, ids, t)
  {
    Reachable(cfg, first, before);
    assert forall i :: 0 <= i < |es| ==> FavourableStep(cfg, Run(cfg, Run(cfg, first, before), es[..i]), s, es[i]);
    assert OwnResolves(cfg, es[..k]);
    RunKeepsInv(cfg, Run(cfg, first, before), es[..k]);
  }
}
