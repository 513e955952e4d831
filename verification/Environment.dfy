/** Everything a cycle reaches through a client: Postgres, the FROST servers, the vendor and
    the clock. The answers are arbitrary, and before every call the other streams, a purge
    and the clock may have moved on. What happens is recorded as a run of WritePath. */
module Environment {
  import opened Canonical
  import opened Store
  import opened WritePath
  import opened AtMostOnce
  import opened CursorMeaning
  import V = Validator

  datatype ProbeResult = Exists | Absent | ProbePermanent | ProbeTransient
  datatype PostResult = PostedAs(id: int) | Conflicted | PostPermanent | PostTransient

  /** An event that may fall between two effects of stream `s`. */
  predicate Foreign(cfg: Config, s: StreamId, e: Event) {
    OwnResolve(cfg, e) && !e.Crash? && (e.Effect? ==> e.s != s)
  }

  predicate HistoryGrew(w: World, w': World) {
    && w.hist.rejected <= w'.hist.rejected
    && w.hist.refused <= w'.hist.refused
    && w.hist.logged.Keys <= w'.hist.logged.Keys
  }

  /** The row of `s` and its cursor are as they were, and history only grew. */
  predicate SameRow(w: World, w': World, s: StreamId) {
    && CursorOf(w', s) == CursorOf(w, s)
    && (s in w'.db.rows <==> s in w.db.rows)
    && HistoryGrew(w, w')
  }

  lemma OthersDeedKeepsRow(cfg: Config, w: World, o: StreamId, d: Deed, s: StreamId)
    requires o != s
    ensures CursorOf(Perform(cfg, w, o, d), s) == CursorOf(w, s)
    ensures s in Perform(cfg, w, o, d).db.rows <==> s in w.db.rows
  {
  }

  lemma OthersEffectKeepsRow(cfg: Config, w: World, o: StreamId, a: Answer, s: StreamId)
    requires o != s
    ensures SameRow(w, EffectStep(cfg, w, o, a), s)
  {
    var d := MoveOf(cfg, w, o, a).does;
    OthersDeedKeepsRow(cfg, w, o, d, s);
    DeedKeepsHandled(cfg, w, o, d);
  }

  lemma ForeignStep(cfg: Config, w: World, e: Event, s: StreamId)
    requires Foreign(cfg, s, e)
    ensures PhaseOf(Step(cfg, w, e), s) == PhaseOf(w, s)
    ensures SameRow(w, Step(cfg, w, e), s)
  {
    if e.Effect? {
      EffectOnPhases(cfg, w, e.s, e.a);
      OthersEffectKeepsRow(cfg, w, e.s, e.a, s);
    }
  }

  /** Whatever the others do between two effects of `s`, its own cycle stands still. */
  lemma {:induction false} ForeignRun(cfg: Config, w: World, es: seq<Event>, s: StreamId)
    requires forall i :: 0 <= i < |es| ==> Foreign(cfg, s, es[i])
    ensures PhaseOf(Run(cfg, w, es), s) == PhaseOf(w, s)
    ensures SameRow(w, Run(cfg, w, es), s)
  {
    if es != [] {
      ForeignRun(cfg, w, es[..|es| - 1], s);
      ForeignStep(cfg, Run(cfg, w, es[..|es| - 1]), es[|es| - 1], s);
    }
  }

  /** What the last effect of a cycle leaves behind. */
  lemma AdvanceEffect(cfg: Config, w: World, s: StreamId, cy: Cycle, a: Answer)
    requires PhaseOf(w, s) == Advancing(cy) && (a.AdvanceDone? || a.AdvanceFailed?)
    ensures var w' := EffectStep(cfg, w, s, a);
            && MoveOf(cfg, w, s, a).next == Idle
            && w'.held == w.held
            && w'.db == (if a.AdvanceDone? || a.applied then AdvancePollCursor(w.db, s, cy.max) else w.db)
  {
  }

  /** What the INSERT leaves behind, and when the observation is then covered. */
  lemma RecordEffect(cfg: Config, w: World, s: StreamId, cy: Cycle, replies: seq<Reply>, a: Answer)
    requires PhaseOf(w, s) == Recording(cy, replies) && cy.todo != []
    requires a.RecordDone? || a.RecordFailed?
    requires w.db.log.Keys <= w.hist.logged.Keys
    ensures var w' := EffectStep(cfg, w, s, a);
            var k := LogKey(s, HeadTime(cy));
            var row := LogRow(cy.todo[0].result, cy.todo[0].rawId, FirstCreatedId(replies), w.clock);
            && MoveOf(cfg, w, s, a).next == (if a.RecordDone? && s in w.db.rows then Covered(cy) else Idle)
            && w'.held == w.held
            && w'.db == (if a.RecordDone? || a.committed then RecordObservationWrite(w.db, k, row) else w.db)
            && (a.RecordDone? && s in w.db.rows ==> k in w'.hist.logged)
            && CursorOf(w', s) == CursorOf(w, s)
            && (s in w'.db.rows <==> s in w.db.rows)
  {
  }

  /** What the INSERT's answer says, and what becomes of the attempt behind a new row. */
  lemma RecordAnswer(b: Ledger, cfg: Config, w: World, s: StreamId, cy: Cycle, replies: seq<Reply>, a: Answer)
    requires PhaseOf(w, s) == Recording(cy, replies) && cy.todo != []
    requires a.RecordDone? || a.RecordFailed?
    ensures var k, w' := LogKey(s, HeadTime(cy)), EffectStep(cfg, w, s, a);
            var outcome := RecordOutcomeOf(w.db, k);
            && (a.RecordDone? && outcome.Inserted? ==> w'.hist.logged == w.hist.logged[k := Attempt(cy.ids, replies)])
            && Entered(b, cfg, w, s, a) ==
               match a
               case RecordDone =>
                 (match outcome
                  case NoSuchStream => CountFail(b)
                  case AlreadyExists => CountSkip(b)
                  case Inserted => CountInsert(b))
               case _ => if a.committed && outcome.Inserted? then CountFail(CountInsert(b)) else CountFail(b)
  {
  }

  /** What the answer to a POST leaves behind. */
  lemma PostEffect(b: Ledger, cfg: Config, w: World, s: StreamId, cy: Cycle, replies: seq<Reply>, a: Answer)
    requires PhaseOf(w, s) == Posting(cy, replies)
    requires a.PostCreated? || a.PostConflict? || a.PostRefused? || a.PostFailed?
    ensures var m, w' := MoveOf(cfg, w, s, a), EffectStep(cfg, w, s, a);
            && w'.db == w.db
            && w'.held == (if a.PostCreated? || (a.PostFailed? && a.landed)
                           then Create(w, LabelAt(cfg, |replies|), KeyAt(cy, |replies|)).held else w.held)
            && m.next == (if a.PostFailed? then Idle else AfterReply(cfg, cy, replies + [PostReply(a)]))
            && (!a.PostFailed? && |replies| + 1 >= |cfg.labels| && Dropped(replies + [PostReply(a)]) ==>
                  LogKey(s, HeadTime(cy)) in w'.hist.refused)
            && CursorOf(w', s) == CursorOf(w, s) && (s in w'.db.rows <==> s in w.db.rows)
            && Entered(b, cfg, w, s, a) ==
               match a
               case PostFailed(_) => CountFail(b)
               case PostCreated(_) => b
               case _ => AfterDrop(b, cfg, replies + [PostReply(a)])
  {
    if a.PostCreated? {
      assert (replies + [Created(a.id)])[|replies|].Created?;
    }
  }

  lemma RunOneMore(cfg: Config, first: World, trace: seq<Event>, s: StreamId, a: Answer)
    ensures Run(cfg, first, trace + [Effect(s, a)]) == EffectStep(cfg, Run(cfg, first, trace), s, a)
  {
    assert (trace + [Effect(s, a)])[..|trace + [Effect(s, a)]| - 1] == trace;
  }

  /** How the parts of an effect that are not tables or servers follow from its move. */
  lemma EffectSettles(cfg: Config, w: World, s: StreamId, a: Answer)
    ensures var m, w' := MoveOf(cfg, w, s, a), EffectStep(cfg, w, s, a);
            && w'.phases == w.phases[s := m.next] && w'.clock == w.clock
            && w'.hist == Perform(cfg, w, s, m.does).hist
            && HistoryGrew(w, w')
  {
    DeedKeepsHandled(cfg, w, s, MoveOf(cfg, w, s, a).does);
  }

  // ---- What a stream's own effects came to --------------------------------------------------

  /** How often a stream asked for its cursor, fetched and recorded a poll; how many of its
      observations were found in the log (by the lookup or by the INSERT), dropped and
      inserted; and how many of its calls failed. */
  datatype Ledger = Ledger(
    asked: nat, fetched: nat, polled: nat, skipped: nat, dropped: nat, inserted: nat, failed: nat)

  const BLANK := Ledger(0, 0, 0, 0, 0, 0, 0)

  function CountAsk(b: Ledger): Ledger { b.(asked := b.asked + 1) }
  function CountFetch(b: Ledger): Ledger { b.(fetched := b.fetched + 1) }
  function CountPoll(b: Ledger): Ledger { b.(polled := b.polled + 1) }
  function CountSkip(b: Ledger): Ledger { b.(skipped := b.skipped + 1) }
  function CountDrop(b: Ledger): Ledger { b.(dropped := b.dropped + 1) }
  function CountInsert(b: Ledger): Ledger { b.(inserted := b.inserted + 1) }
  function CountFail(b: Ledger): Ledger { b.(failed := b.failed + 1) }

  /** The INSERT: its answer, and whether it made a row. */
  function AfterRecord(b: Ledger, w: World, s: StreamId, cy: Cycle, a: Answer): Ledger {
    var isNew := s in w.db.rows && LogKey(s, HeadTime(cy)) !in w.db.log;
    match a
    case RecordDone => if s !in w.db.rows then CountFail(b) else if isNew then CountInsert(b) else CountSkip(b)
    case RecordFailed(committed) => if committed && isNew then CountFail(CountInsert(b)) else CountFail(b)
    case _ => b
  }

  /** A reply that completes a drop. */
  function AfterDrop(b: Ledger, cfg: Config, replies: seq<Reply>): Ledger {
    if |replies| >= |cfg.labels| && Dropped(replies) then CountDrop(b) else b
  }

  /** What effect `a` of stream `s` adds. */
  function Entered(b: Ledger, cfg: Config, w: World, s: StreamId, a: Answer): Ledger {
    match PhaseOf(w, s)
    case Idle =>
      (match a
       case CursorRead => CountAsk(b)
       case CursorFailed => CountFail(CountAsk(b))
       case PolledDone => CountPoll(b)
       case PolledFailed => CountPoll(b)
       case _ => b)
    case Fetching(_) => if a.Fetched? then CountFetch(b) else if a.FetchFailed? then CountFail(CountFetch(b)) else b
    case Resolving(_) => if a.ResolveFailed? then CountFail(b) else b
    case Checking(cy) =>
      if a.LogReadFailed? then CountFail(b)
      else if a.LogRead? && LogKey(s, HeadTime(cy)) in w.db.log then CountSkip(b)
      else b
    case Probing(cy, replies) =>
      (match a
       case ProbeFailed => CountFail(b)
       case ProbeRefused => AfterDrop(b, cfg, replies + [Refused])
       case ProbeAnswered =>
         if Copies(w, LabelAt(cfg, |replies|), KeyAt(cy, |replies|)) > 0 then AfterDrop(b, cfg, replies + [Present])
         else b
       case _ => b)
    case Posting(_, replies) =>
      (match a
       case PostFailed(_) => CountFail(b)
       case PostConflict => AfterDrop(b, cfg, replies + [Conflict])
       case PostRefused => AfterDrop(b, cfg, replies + [Refused])
       case _ => b)
    case Recording(cy, _) => AfterRecord(b, w, s, cy, a)
    case Advancing(_) => b
  }

  function LedgerOf(cfg: Config, w: World, es: seq<Event>, s: StreamId): Ledger {
    if es == [] then BLANK
    else
      var n := |es| - 1;
      var b := LedgerOf(cfg, w, es[..n], s);
      if es[n].Effect? && es[n].s == s then Entered(b, cfg, Run(cfg, w, es[..n]), s, es[n].a) else b
  }

  lemma LedgerOneMore(cfg: Config, w: World, es: seq<Event>, o: StreamId, a: Answer, s: StreamId)
    ensures LedgerOf(cfg, w, es + [Effect(o, a)], s) ==
            if o == s then Entered(LedgerOf(cfg, w, es, s), cfg, Run(cfg, w, es), s, a) else LedgerOf(cfg, w, es, s)
  {
    assert (es + [Effect(o, a)])[..|es|] == es;
  }

  lemma {:induction false} ForeignLedger(cfg: Config, w: World, es: seq<Event>, more: seq<Event>, s: StreamId)
    requires forall i :: 0 <= i < |more| ==> Foreign(cfg, s, more[i])
    ensures LedgerOf(cfg, w, es + more, s) == LedgerOf(cfg, w, es, s)
  {
    if more == [] {
      assert es + more == es;
    } else {
      var n := |more| - 1;
      assert (es + more)[..|es| + n] == es + more[..n];
      ForeignLedger(cfg, w, es, more[..n], s);
    }
  }

  predicate NoLower(a: Ledger, b: Ledger) {
    && a.asked <= b.asked && a.fetched <= b.fetched && a.polled <= b.polled
    && a.skipped <= b.skipped && a.dropped <= b.dropped && a.inserted <= b.inserted && a.failed <= b.failed
  }

  lemma EffectIsNoLower(b: Ledger, cfg: Config, w: World, s: StreamId, a: Answer)
    ensures NoLower(b, Entered(b, cfg, w, s, a))
  {
  }

  /** Ledgers only grow. */
  lemma {:induction false} LedgerGrows(cfg: Config, w: World, es: seq<Event>, more: seq<Event>, s: StreamId)
    requires es <= more
    ensures NoLower(LedgerOf(cfg, w, es, s), LedgerOf(cfg, w, more, s))
  {
    if |es| < |more| {
      var n := |more| - 1;
      LedgerGrows(cfg, w, es, more[..n], s);
      if more[n].Effect? {
        EffectIsNoLower(LedgerOf(cfg, w, more[..n], s), cfg, Run(cfg, w, more[..n]), s, more[n].a);
      }
    } else {
      assert es == more;
    }
  }

  /** Just before some event since `from`, rows dated after `horizon` were in the future. */
  ghost predicate WasHorizon(cfg: Config, first: World, trace: seq<Event>, from: nat, horizon: Time) {
    exists n :: from <= n <= |trace| && horizon == Run(cfg, first, trace[..n]).clock + cfg.skew
  }

  lemma IsHorizon(cfg: Config, first: World, trace: seq<Event>)
    ensures WasHorizon(cfg, first, trace, |trace|, Run(cfg, first, trace).clock + cfg.skew)
  {
    assert trace[..|trace|] == trace;
  }

  lemma HorizonAcross(cfg: Config, first: World, trace: seq<Event>, more: seq<Event>, from: nat, earlier: nat, horizon: Time)
    requires WasHorizon(cfg, first, trace, from, horizon) && trace <= more && earlier <= from
    ensures WasHorizon(cfg, first, more, earlier, horizon)
  {
    var n :| from <= n <= |trace| && horizon == Run(cfg, first, trace[..n]).clock + cfg.skew;
    assert more[..n] == trace[..n];
  }

  class Outside {
    const cfg: Config
    const store: PGStore
    var held: map<Label, multiset<ObsKey>>
    var phases: map<StreamId, Phase>
    var clock: Time
    var hist: History
    ghost var first: World
    ghost var trace: seq<Event>
    ghost var book: StreamId -> Ledger

    function Value(): World
      reads this, store
    {
      World(store.Value(), held, phases, clock, hist)
    }

    /** The present is a run of the protocol from a fresh start. */
    ghost predicate Valid()
      reads this, store
    {
      && Fresh(first) && Once(first)
      && OwnResolves(cfg, trace)
      && Value() == Run(cfg, first, trace)
      && (forall s {:trigger LedgerOf(cfg, first, trace, s)} :: book(s) == LedgerOf(cfg, first, trace, s))
    }

    function PhaseNow(s: StreamId): Phase
      reads this, store
    {
      PhaseOf(Value(), s)
    }

    /** The run has been extended, and it still is one. */
    twostate predicate Extended()
      reads this, store
    {
      Valid() && first == old(first) && old(trace) <= trace
    }

    constructor (cfg: Config, store: PGStore, held: map<Label, multiset<ObsKey>>, clock: Time)
      requires forall l, k :: l in held ==> held[l][k] <= 1
      requires store.log == map[]
      requires forall s :: s in store.rows ==> store.rows[s].pollCursor.None?
      ensures Valid() && this.cfg == cfg && this.store == store && trace == []
      ensures Value() == World(store.Value(), held, map[], clock, History({}, {}, map[], map[]))
    {
      this.cfg, this.store, this.held, this.clock := cfg, store, held, clock;
      this.phases, this.hist := map[], History({}, {}, map[], map[]);
      this.first := World(store.Value(), held, map[], clock, History({}, {}, map[], map[]));
      this.trace, this.book := [], _ => BLANK;
    }

    /** Any run of the other streams, the clock and purges happens here. */
    method Others(s: StreamId)
      requires Valid()
      modifies this, store
      ensures Extended()
      ensures PhaseNow(s) == old(PhaseNow(s)) && SameRow(old(Value()), Value(), s)
      ensures book(s) == old(book(s))
    {
      var es: seq<Event> := *;
      if forall i | 0 <= i < |es| :: Foreign(cfg, s, es[i]) {
        var w := Run(cfg, Value(), es);
        ForeignRun(cfg, Value(), es, s);
        ForeignLedger(cfg, first, trace, es, s);
        RunAppend(cfg, first, trace, es);
        store.rows, store.log := w.db.rows, w.db.log;
        held, phases, clock, hist := w.held, w.phases, w.clock, w.hist;
        trace := trace + es;
        ghost var f, so := first, trace;
        book := x => LedgerOf(cfg, f, so, x);
      }
    }

    /** The effect has been carried out on the tables and servers; the cycle moves on. */
    method Settle(s: StreamId, a: Answer, before: World)
      requires Fresh(first) && Once(first) && OwnResolves(cfg, trace)
      requires before == Run(cfg, first, trace) && OwnResolve(cfg, Effect(s, a))
      requires var after := EffectStep(cfg, before, s, a);
               store.Value() == after.db && held == after.held
      requires phases == before.phases && clock == before.clock
      requires forall x {:trigger LedgerOf(cfg, first, trace, x)} :: book(x) == LedgerOf(cfg, first, trace, x)
      modifies this
      ensures Valid() && first == old(first)
      ensures trace == old(trace) + [Effect(s, a)]
      ensures Value() == EffectStep(cfg, before, s, a)
      ensures PhaseNow(s) == MoveOf(cfg, before, s, a).next
      ensures clock == old(clock) && HistoryGrew(before, Value())
      ensures book(s) == Entered(old(book(s)), cfg, before, s, a)
    {
      var m := MoveOf(cfg, before, s, a);
      RunOneMore(cfg, first, trace, s, a);
      EffectSettles(cfg, before, s, a);
      phases := phases[s := m.next];
      hist := Perform(cfg, before, s, m.does).hist;
      ghost var f, so := first, trace + [Effect(s, a)];
      LedgerOneMore(cfg, first, trace, s, a, s);
      trace := trace + [Effect(s, a)];
      book := x => LedgerOf(cfg, f, so, x);
    }

    method Now() returns (t: Time)
      ensures t == clock
    {
      t := clock;
    }

    method GetPollCursor(s: StreamId) returns (cursor: Option<Time>)
      requires Valid() && PhaseNow(s) == Idle
      modifies this, store
      ensures Extended() && SameRow(old(Value()), Value(), s)
      ensures cursor.None? ==> PhaseNow(s) == Idle
      ensures cursor.Some? ==>
                && s in store.rows
                && cursor.value == (if CursorOf(Value(), s).Some? then CursorOf(Value(), s).value else ZERO_TIME)
                && PhaseNow(s) == Fetching(if cursor.value == ZERO_TIME then clock - cfg.lookback else cursor.value)
      ensures cursor.Some? ==> book(s) == CountAsk(old(book(s)))
      ensures cursor.None? ==>
                book(s) == CountFail(CountAsk(old(book(s)))) || (book(s) == CountAsk(old(book(s))) && s !in store.rows)
    {
      Others(s);
      var ok: bool := *;
      var before := Value();
      cursor := store.GetPollCursor(s);
      if !ok {
        cursor := None;
      }
      Settle(s, if ok then CursorRead else CursorFailed, before);
    }

    /** The vendor answers with any batch, or fails. */
    method FetchObservations(s: StreamId, since: Time) returns (rows: Option<seq<Observation>>)
      requires Valid() && PhaseNow(s) == Fetching(since)
      modifies this, store
      ensures Extended() && SameRow(old(Value()), Value(), s)
      ensures rows.None? ==> PhaseNow(s) == Idle
      ensures rows.Some? ==>
                && PhaseNow(s) == Start(cfg, Poll, since, rows.value, clock)
                && RejectedKeys(s, V.Rejected(rows.value, since, clock, cfg.skew)) <= hist.rejected
      ensures book(s) == if rows.Some? then CountFetch(old(book(s))) else CountFail(CountFetch(old(book(s))))
    {
      Others(s);
      rows := *;
      Settle(s, if rows.Some? then Fetched(rows.value) else FetchFailed, Value());
    }

    /** A push request hands over its rows for `s`. */
    method ReceivePush(s: StreamId, rows: seq<Observation>)
      requires Valid() && PhaseNow(s) == Idle
      modifies this, store
      ensures Extended() && SameRow(old(Value()), Value(), s)
      ensures PhaseNow(s) == Start(cfg, Push, ZERO_TIME, rows, clock)
      ensures RejectedKeys(s, V.Rejected(rows, ZERO_TIME, clock, cfg.skew)) <= hist.rejected
      ensures book(s) == old(book(s))
    {
      Others(s);
      Settle(s, Pushed(rows), Value());
    }

    /** The entity chain resolves to one own Datastream per target, or some call fails. */
    method ResolveTargets(s: StreamId, cy: Cycle) returns (ids: Option<seq<StaId>>)
      requires Valid() && PhaseNow(s) == Resolving(cy)
      modifies this, store
      ensures Extended() && SameRow(old(Value()), Value(), s)
      ensures ids.None? ==> PhaseNow(s) == Idle
      ensures ids.Some? ==> |ids.value| == |cfg.labels| && PhaseNow(s) == Checking(cy.(ids := ids.value))
      ensures book(s) == if ids.Some? then old(book(s)) else CountFail(old(book(s)))
    {
      Others(s);
      ids := *;
      if ids.Some? && (|ids.value| != |cfg.labels| || !OwnIds(cfg, s, ids.value)) {
        ids := None;
      }
      Settle(s, if ids.Some? then Resolved(ids.value) else ResolveFailed, Value());
    }

    /** Is the observation being written in the write log? */
    method ObservationExists(s: StreamId, cy: Cycle) returns (found: Option<bool>)
      requires Valid() && PhaseNow(s) == Checking(cy)
      modifies this, store
      ensures Extended() && SameRow(old(Value()), Value(), s)
      ensures found.None? ==> PhaseNow(s) == Idle
      ensures found == Some(true) ==> PhaseNow(s) == Covered(cy) && LogKey(s, HeadTime(cy)) in hist.logged
      ensures found == Some(false) ==> PhaseNow(s) == AfterReply(cfg, cy, [])
      ensures book(s) ==
              match found
              case None => CountFail(old(book(s)))
              case Some(hit) => if hit then CountSkip(old(book(s))) else old(book(s))
    {
      Others(s);
      FreshProgress(first);
      RunKeepsProgress(cfg, first, trace);
      var ok: bool := *;
      var present := store.ObservationExists(LogKey(s, HeadTime(cy)));
      found := if ok then Some(present) else None;
      Settle(s, if ok then LogRead else LogReadFailed, Value());
    }

    /** A target's answer is in; if it completes a drop, that is on record. */
    ghost predicate Replied(s: StreamId, cy: Cycle, replies: seq<Reply>)
      reads this, store
    {
      && PhaseNow(s) == AfterReply(cfg, cy, replies)
      && (|replies| >= |cfg.labels| && Dropped(replies) ==> LogKey(s, HeadTime(cy)) in hist.refused)
    }

    /** The idempotency probe on target `|replies|`. */
    method Probe(s: StreamId, cy: Cycle, replies: seq<Reply>) returns (r: ProbeResult)
      requires Valid() && PhaseNow(s) == Probing(cy, replies)
      modifies this, store
      ensures Extended() && SameRow(old(Value()), Value(), s)
      ensures r.ProbeTransient? ==> PhaseNow(s) == Idle
      ensures r.ProbePermanent? ==> Replied(s, cy, replies + [Refused])
      ensures r.Exists? ==> Replied(s, cy, replies + [Present])
      ensures r.Absent? ==> PhaseNow(s) == Posting(cy, replies)
      ensures book(s) ==
              match r
              case ProbeTransient => CountFail(old(book(s)))
              case ProbePermanent => AfterDrop(old(book(s)), cfg, replies + [Refused])
              case Exists => AfterDrop(old(book(s)), cfg, replies + [Present])
              case Absent => old(book(s))
    {
      Others(s);
      var a: Answer := *;
      if !a.ProbeAnswered? && !a.ProbeRefused? {
        a := ProbeFailed;
      }
      var present := Copies(Value(), LabelAt(cfg, |replies|), KeyAt(cy, |replies|)) > 0;
      r := match a
           case ProbeAnswered => (if present then Exists else Absent)
           case ProbeRefused => ProbePermanent
           case _ => ProbeTransient;
      Settle(s, a, Value());
    }

    /** The POST to target `|replies|`; a failed one may have landed all the same. */
    method Post(s: StreamId, cy: Cycle, replies: seq<Reply>) returns (r: PostResult)
      requires Valid() && PhaseNow(s) == Posting(cy, replies)
      modifies this, store
      ensures Extended() && SameRow(old(Value()), Value(), s)
      ensures r.PostTransient? ==> PhaseNow(s) == Idle
      ensures r.PostPermanent? ==> Replied(s, cy, replies + [Refused])
      ensures r.Conflicted? ==> Replied(s, cy, replies + [Conflict])
      ensures r.PostedAs? ==> Replied(s, cy, replies + [Created(r.id)])
      ensures book(s) ==
              match r
              case PostTransient => CountFail(old(book(s)))
              case PostPermanent => AfterDrop(old(book(s)), cfg, replies + [Refused])
              case Conflicted => AfterDrop(old(book(s)), cfg, replies + [Conflict])
              case PostedAs(_) => old(book(s))
    {
      Others(s);
      var before := Value();
      var a: Answer := *;
      if !a.PostCreated? && !a.PostConflict? && !a.PostRefused? && !a.PostFailed? {
        a := PostFailed(false);
      }
      if a.PostCreated? || (a.PostFailed? && a.landed) {
        held := Create(before, LabelAt(cfg, |replies|), KeyAt(cy, |replies|)).held;
      }
      r := match a
           case PostCreated(id) => PostedAs(id)
           case PostConflict => Conflicted
           case PostRefused => PostPermanent
           case _ => PostTransient;
      PostEffect(book(s), cfg, before, s, cy, replies, a);
      Settle(s, a, before);
    }

    /** The INSERT and its answer; an error (None) may hide a commit. */
    method RecordObservationWrite(s: StreamId, cy: Cycle, replies: seq<Reply>, staObservationId: int)
      returns (r: Option<RecordOutcome>)
      requires Valid() && PhaseNow(s) == Recording(cy, replies) && cy.todo != []
      requires staObservationId == FirstCreatedId(replies)
      modifies this, store
      ensures Extended() && SameRow(old(Value()), Value(), s)
      ensures r.None? || r.value.NoSuchStream? ==> PhaseNow(s) == Idle
      ensures r.Some? && !r.value.NoSuchStream? ==>
                PhaseNow(s) == Covered(cy) && LogKey(s, HeadTime(cy)) in hist.logged
      ensures r == Some(Inserted) ==> hist.logged[LogKey(s, HeadTime(cy))] == Attempt(cy.ids, replies)
      ensures match r
              case None => book(s) == CountFail(old(book(s))) || book(s) == CountFail(CountInsert(old(book(s))))
              case Some(NoSuchStream) => book(s) == CountFail(old(book(s)))
              case Some(AlreadyExists) => book(s) == CountSkip(old(book(s)))
              case Some(Inserted) => book(s) == CountInsert(old(book(s)))
    {
      Others(s);
      FreshProgress(first);
      RunKeepsProgress(cfg, first, trace);
      var before := Value();
      var a: Answer := *;
      if !a.RecordDone? && !a.RecordFailed? {
        a := RecordFailed(false);
      }
      r := None;
      if a.RecordDone? || a.committed {
        var row := LogRow(cy.todo[0].result, cy.todo[0].rawId, staObservationId, clock);
        var outcome := store.Record(LogKey(s, HeadTime(cy)), row);
        r := if a.RecordDone? then Some(outcome) else None;
      }
      RecordEffect(cfg, before, s, cy, replies, a);
      RecordAnswer(book(s), cfg, before, s, cy, replies, a);
      Settle(s, a, before);
    }

    /** The UPDATE of the cursor; an error may hide a commit. */
    method AdvancePollCursor(s: StreamId, cy: Cycle) returns (ok: bool)
      requires Valid() && PhaseNow(s) == Advancing(cy)
      modifies this, store
      ensures Extended() && PhaseNow(s) == Idle && HistoryGrew(old(Value()), Value())
      ensures s in store.rows <==> old(s in store.rows)
      ensures ok && s in store.rows ==>
                CursorOf(Value(), s).Some? && CursorOf(Value(), s).value >= cy.max
      ensures CursorOf(Value(), s) == old(CursorOf(Value(), s)) || CursorOf(Value(), s) == Some(cy.max)
      ensures book(s) == old(book(s))
    {
      Others(s);
      var before := Value();
      ok := *;
      var applied: bool := *;
      if ok || applied {
        store.Advance(s, cy.max);
      }
      var a := if ok then AdvanceDone else AdvanceFailed(applied);
      AdvanceEffect(cfg, before, s, cy, a);
      Settle(s, a, before);
    }

    method SetLastPolledAt(s: StreamId) returns (ok: bool)
      requires Valid() && PhaseNow(s) == Idle
      modifies this, store
      ensures Extended() && PhaseNow(s) == Idle && SameRow(old(Value()), Value(), s)
      ensures ok && s in store.rows ==> store.rows[s].lastPolledAt == Some(clock)
      ensures book(s) == CountPoll(old(book(s)))
      ensures |trace| > 0 && trace[|trace| - 1] == Effect(s, if ok then PolledDone else PolledFailed)
    {
      Others(s);
      var before := Value();
      ok := *;
      if ok {
        store.MarkPolled(s, clock);
      }
      Settle(s, if ok then PolledDone else PolledFailed, before);
    }
  }
}
