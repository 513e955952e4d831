/** The imperative write path: Writer.PostObservation, Processor.WriteObservation and
    ProcessStream, and the scheduler's cycle. Each is proved to be a piece of a run of
    WritePath, whatever the other streams do meanwhile, and to deliver what it returns. */
module Ingest {
  import opened Canonical
  import opened Store
  import opened WritePath
  import opened AtMostOnce
  import opened CursorMeaning
  import opened Environment
  import G = GapFree
  import L = LogMeaning
  import V = Validator

  datatype WriteError = Permanent | Transient

  /** What ProcessStream reports. */
  datatype Result = Result(
    received: nat, accepted: nat, skippedIdempotent: nat, rejected: seq<V.Rejection>, maxPhenomenonTime: Time)

  /** The reply behind what PostObservation returned. */
  predicate ReplyIs(reply: Reply, id: int, created: bool, err: Option<WriteError>) {
    match err
    case None => if created then reply == Created(id) else id == 0 && (reply.Present? || reply.Conflict?)
    case Some(e) => e.Permanent? && reply == Refused
  }

  /** Every row of a batch that was fully processed has been dealt with by its own
      validation. */
  predicate Settled(w: World, s: StreamId, since: Time, horizon: Time, batch: seq<Observation>) {
    forall o :: o in batch ==> Dealt(w, s, since, horizon, o)
  }

  lemma SettledAcross(w: World, w': World, s: StreamId, since: Time, horizon: Time, batch: seq<Observation>)
    requires Settled(w, s, since, horizon, batch) && HistoryGrew(w, w')
    ensures Settled(w', s, since, horizon, batch)
  {
  }

  /** The targets on which something was created. */
  function CreatedOn(cfg: Config, replies: seq<Reply>): set<Label> {
    set i | 0 <= i < |replies| && replies[i].Created? :: LabelAt(cfg, i)
  }

  lemma CreatedOnNone(cfg: Config, replies: seq<Reply>)
    ensures CreatedOn(cfg, replies) == {} <==> !Wrote(replies)
  {
    if i :| 0 <= i < |replies| && replies[i].Created? {
      assert LabelAt(cfg, i) in CreatedOn(cfg, replies);
    }
  }

  lemma CreatedOneMore(cfg: Config, replies: seq<Reply>, reply: Reply)
    ensures CreatedOn(cfg, replies + [reply]) ==
            CreatedOn(cfg, replies) + if reply.Created? then {LabelAt(cfg, |replies|)} else {}
  {
    var more := replies + [reply];
    forall l | l in CreatedOn(cfg, replies) ensures l in CreatedOn(cfg, more) {
      var i :| 0 <= i < |replies| && replies[i].Created? && l == LabelAt(cfg, i);
      assert more[i].Created?;
    }
    if reply.Created? {
      assert more[|replies|].Created?;
    }
  }

  /** After a create nothing is dropped. */
  lemma CreatedIsNoDrop(replies: seq<Reply>)
    ensures forall id :: !Dropped(replies + [Created(id)])
  {
    forall id ensures !Dropped(replies + [Created(id)]) {
      assert (replies + [Created(id)])[|replies|].Created?;
    }
  }

  /** What writing one observation adds to its stream's ledger: it was found in the log, or
      dropped, or inserted, or a call failed — after the INSERT had made a row, perhaps. */
  predicate RowBooked(b: Ledger, b': Ledger, skipped: bool, dropped: bool, err: bool) {
    if err then b' == CountFail(b) || b' == CountFail(CountInsert(b))
    else b' == if skipped then CountSkip(b) else if dropped then CountDrop(b) else CountInsert(b)
  }

  /** What writing `rows` observations adds: each was found in the log, dropped or inserted,
      and `skipped` of them were found in the log; or one call failed in the end. */
  predicate RowsBooked(b: Ledger, b': Ledger, rows: nat, skipped: nat, err: bool) {
    && b'.asked == b.asked && b'.fetched == b.fetched && b'.polled == b.polled
    && b'.skipped == b.skipped + skipped
    && b'.dropped >= b.dropped && b'.inserted >= b.inserted
    && b'.failed == b.failed + (if err then 1 else 0)
    && (!err ==> skipped + (b'.dropped - b.dropped) + (b'.inserted - b.inserted) == rows)
  }

  lemma RowsBookedOneMore(
    b: Ledger, mid: Ledger, b': Ledger, rows: nat, skippedSoFar: nat, skipped: bool, dropped: bool, err: bool, n: nat)
    requires RowsBooked(b, mid, rows, skippedSoFar, false) && RowBooked(mid, b', skipped, dropped, err)
    requires err ==> !skipped
    ensures RowsBooked(b, b', if err then n else rows + 1, if skipped then skippedSoFar + 1 else skippedSoFar, err)
  {
  }

  /** Only the sum of the clock and the skew matters. */
  lemma {:induction false} SameHorizon(obs: seq<Observation>, cursor: Time, now: Time, skew: int)
    ensures V.Kept(obs, cursor, now, skew) == V.Kept(obs, cursor, now + skew, 0)
    ensures V.Rejected(obs, cursor, now, skew) == V.Rejected(obs, cursor, now + skew, 0)
  {
    if obs != [] {
      SameHorizon(obs[..|obs| - 1], cursor, now, skew);
    }
  }

  lemma {:induction false} MaxTimeIs(obs: seq<Observation>, start: Time, m: Time)
    requires start <= m && (m == start || HasTime(obs, m))
    requires forall o :: o in obs ==> o.phenomenonTime <= m
    ensures MaxTime(obs, start) == m
  {
    G.MaxTimeIsMax(obs, start);
    if HasTime(obs, MaxTime(obs, start)) {
      var i :| 0 <= i < |obs| && obs[i].phenomenonTime == MaxTime(obs, start);
      assert obs[i] in obs;
    }
  }

  class Processor {
    const outside: Outside

    constructor (outside: Outside)
      ensures this.outside == outside
    {
      this.outside := outside;
    }

    /** Probe, then POST: (id, true) fresh, (0, false) already there, or an error. */
    method PostObservation(s: StreamId, cy: Cycle, replies: seq<Reply>)
      returns (id: int, created: bool, err: Option<WriteError>, reply: Reply)
      requires outside.Valid() && outside.PhaseNow(s) == Probing(cy, replies)
      modifies outside, outside.store
      ensures outside.Extended() && SameRow(old(outside.Value()), outside.Value(), s)
      ensures err == Some(Transient) ==> outside.PhaseNow(s) == Idle
      ensures err != Some(Transient) ==>
                ReplyIs(reply, id, created, err) && outside.Replied(s, cy, replies + [reply])
      ensures outside.book(s) ==
              if err == Some(Transient) then CountFail(old(outside.book(s)))
              else AfterDrop(old(outside.book(s)), outside.cfg, replies + [reply])
    {
      reply := Refused;
      var probe := outside.Probe(s, cy, replies);
      match probe {
        case ProbeTransient => return 0, false, Some(Transient), Refused;
        case ProbePermanent => return 0, false, Some(Permanent), Refused;
        case Exists => return 0, false, None, Present;
        case Absent =>
      }
      var post := outside.Post(s, cy, replies);
      CreatedIsNoDrop(replies);
      match post {
        case Conflicted => return 0, false, None, Conflict;
        case PostPermanent => return 0, false, Some(Permanent), Refused;
        case PostTransient => return 0, false, Some(Transient), Refused;
        case PostedAs(n) => return n, true, None, Created(n);
      }
    }

    /** The target loop of writeObservation, stopped by the first transient failure. */
    method WriteTargets(s: StreamId, cy: Cycle)
      returns (wrote: set<Label>, permanent: bool, staObservationId: int, replies: seq<Reply>, err: bool)
      requires outside.Valid() && outside.PhaseNow(s) == AfterReply(outside.cfg, cy, [])
      modifies outside, outside.store
      ensures outside.Extended() && SameRow(old(outside.Value()), outside.Value(), s)
      ensures err ==> outside.PhaseNow(s) == Idle
      ensures !err ==> |replies| == |outside.cfg.labels| && outside.PhaseNow(s) == AfterReply(outside.cfg, cy, replies)
      ensures !err ==> wrote == CreatedOn(outside.cfg, replies) && (permanent <==> Refused in replies)
      ensures !err ==> staObservationId == FirstCreatedId(replies)
      ensures !err && |replies| > 0 && Dropped(replies) ==> LogKey(s, HeadTime(cy)) in outside.hist.refused
      ensures outside.book(s) ==
              if err then CountFail(old(outside.book(s))) else AfterDrop(old(outside.book(s)), outside.cfg, replies)
    {
      wrote, permanent, staObservationId, replies, err := {}, false, 0, [], false;
      for i := 0 to |outside.cfg.labels|
        invariant outside.Extended() && SameRow(old(outside.Value()), outside.Value(), s)
        invariant |replies| == i
        invariant outside.PhaseNow(s) == AfterReply(outside.cfg, cy, replies)
        invariant wrote == CreatedOn(outside.cfg, replies)
        invariant permanent <==> Refused in replies
        invariant staObservationId == FirstCreatedId(replies)
        invariant i > 0 && i == |outside.cfg.labels| && Dropped(replies) ==> LogKey(s, HeadTime(cy)) in outside.hist.refused
        invariant outside.book(s) == AfterDrop(old(outside.book(s)), outside.cfg, replies)
      {
        var id, created, perr, reply := PostObservation(s, cy, replies);
        if perr == Some(Transient) {
          return wrote, permanent, staObservationId, replies, true;
        }
        CreatedOneMore(outside.cfg, replies, reply);
        replies := replies + [reply];
        assert replies[..i] + [reply] == replies && replies[..|replies| - 1] == replies[..i];
        if perr == Some(Permanent) {
          permanent := true;
          continue;
        }
        if created {
          wrote := wrote + {LabelAt(outside.cfg, i)};
          if staObservationId == 0 {
            staObservationId := id;
          }
        }
      }
    }

    /** Writes `cy.todo[0]` to every target and records it once. */
    method WriteObservation(s: StreamId, cy: Cycle)
      returns (wrote: set<Label>, skipped: bool, dropped: bool, err: bool)
      requires outside.Valid() && outside.PhaseNow(s) == Checking(cy) && cy.todo != []
      modifies outside, outside.store
      ensures outside.Extended() && SameRow(old(outside.Value()), outside.Value(), s)
      ensures err ==> outside.PhaseNow(s) == Idle && !skipped && !dropped
      ensures RowBooked(old(outside.book(s)), outside.book(s), skipped, dropped, err)
      ensures !err && !dropped ==> LogKey(s, HeadTime(cy)) in outside.hist.logged
      ensures !err && !skipped && !dropped ==>
                wrote == CreatedOn(outside.cfg, outside.hist.logged[LogKey(s, HeadTime(cy))].replies)
      ensures !err ==> outside.PhaseNow(s) == Covered(cy)
      ensures dropped ==> LogKey(s, HeadTime(cy)) in outside.hist.refused && wrote == {} && !skipped
    {
      wrote, skipped, dropped, err := {}, false, false, false;
      var found := outside.ObservationExists(s, cy);
      if found.None? {
        return {}, false, false, true;
      }
      if found.value {
        return {}, true, false, false;
      }
      var permanent, staObservationId, replies;
      wrote, permanent, staObservationId, replies, err := WriteTargets(s, cy);
      if err {
        return;
      }
      CreatedOnNone(outside.cfg, replies);
      if wrote == {} && permanent {
        dropped := true;
        return;
      }
      var outcome := outside.RecordObservationWrite(s, cy, replies, staObservationId);
      if outcome.None? || outcome.value.NoSuchStream? {
        err := true;
        return;
      }
      skipped := outcome.value.AlreadyExists?;
    }

    /** The rejection loop of ProcessStream: how far rejected rows alone move the cursor. */
    method CoverRejected(since: Time, rejected: seq<V.Rejection>) returns (max: Time)
      ensures max == MaxRejected(rejected, since)
    {
      max := since;
      for i := 0 to |rejected|
        invariant max == MaxRejected(rejected[..i], since)
      {
        assert rejected[..i + 1][..i] == rejected[..i];
        var r := rejected[i];
        if V.IsDefinitivelyRejected(r.reason) && r.observation.phenomenonTime > max {
          max := r.observation.phenomenonTime;
        }
      }
      assert rejected[..|rejected|] == rejected;
    }

    /** The validator's partition, and how far its rejected half alone moves the cursor. */
    method ValidateBatch(mode: Mode, since: Time, now: Time, batch: seq<Observation>)
      returns (cy: Cycle, rejected: seq<V.Rejection>)
      ensures cy == FirstCycle(outside.cfg, mode, since, batch, now)
      ensures cy.todo == V.Kept(batch, since, now + outside.cfg.skew, 0)
      ensures rejected == V.Rejected(batch, since, now + outside.cfg.skew, 0)
      ensures |cy.todo| + |rejected| == |batch|
      ensures Start(outside.cfg, mode, since, batch, now) == FirstPhase(cy)
    {
      var kept;
      kept, rejected := V.Filter(since, now, outside.cfg.skew, batch);
      var max := CoverRejected(since, rejected);
      SameHorizon(batch, since, now, outside.cfg.skew);
      cy := Cycle(mode, since, now + outside.cfg.skew, batch, kept, max, []);
    }

    /** The write loop of ProcessStream, stopped by the first transient error. */
    method WriteKept(s: StreamId, cy: Cycle) returns (skippedIdempotent: nat, max: Time, err: bool)
      requires outside.Valid() && outside.PhaseNow(s) == Checking(cy) && cy.todo != []
      modifies outside, outside.store
      ensures outside.Extended() && SameRow(old(outside.Value()), outside.Value(), s)
      ensures skippedIdempotent <= |cy.todo|
      ensures RowsBooked(old(outside.book(s)), outside.book(s), |cy.todo|, skippedIdempotent, err)
      ensures err ==> outside.PhaseNow(s) == Idle
      ensures !err ==> outside.PhaseNow(s) == Finish(cy.(todo := [], max := max))
      ensures !err ==> DoneUpTo(outside.Value(), s, cy.todo, |cy.todo|)
      ensures !err ==> MaxUpTo(cy.todo, |cy.todo|, cy.max, max)
    {
      skippedIdempotent, max, err := 0, cy.max, false;
      ghost var b := outside.book(s);
      for i := 0 to |cy.todo|
        invariant outside.Extended() && SameRow(old(outside.Value()), outside.Value(), s)
        invariant RowsDone(outside.Value(), s, cy, i, max, b, outside.book(s), skippedIdempotent)
      {
        skippedIdempotent, max, err := WriteRow(s, cy, i, max, skippedIdempotent, b);
        if err {
          return;
        }
      }
    }

    /** Writes kept row `i`; without an error its time counts for the maximum, and if it was
        found in the log it counts as skipped. */
    method WriteRow(s: StreamId, cy: Cycle, i: nat, max: Time, skippedSoFar: nat, ghost b: Ledger)
      returns (skippedIdempotent: nat, next: Time, err: bool)
      requires outside.Valid() && i < |cy.todo|
      requires RowsDone(outside.Value(), s, cy, i, max, b, outside.book(s), skippedSoFar)
      modifies outside, outside.store
      ensures outside.Extended() && SameRow(old(outside.Value()), outside.Value(), s)
      ensures skippedIdempotent <= |cy.todo|
      ensures err ==> outside.PhaseNow(s) == Idle && RowsBooked(b, outside.book(s), |cy.todo|, skippedIdempotent, true)
      ensures !err ==> RowsDone(outside.Value(), s, cy, i + 1, next, b, outside.book(s), skippedIdempotent)
    {
      var c := cy.(todo := cy.todo[i..], max := max);
      next, skippedIdempotent := max, skippedSoFar;
      ghost var before := outside.book(s);
      var wrote, skipped, dropped;
      wrote, skipped, dropped, err := WriteObservation(s, c);
      RowsBookedOneMore(b, before, outside.book(s), i, skippedSoFar, skipped, dropped, err, |cy.todo|);
      if err {
        return;
      }
      assert cy.todo[i..][1..] == cy.todo[i + 1..] && HeadTime(c) == cy.todo[i].phenomenonTime;
      DoneStep(old(outside.Value()), outside.Value(), s, cy.todo, i);
      if skipped {
        skippedIdempotent := skippedIdempotent + 1;
      }
      if cy.todo[i].phenomenonTime > max {
        next := cy.todo[i].phenomenonTime;
      }
    }

    /** The part of ProcessStream behind the validation: the entity chain and the write loop,
        if anything was kept. */
    method WriteBatch(s: StreamId, cy: Cycle, ghost now: Time)
      returns (skippedIdempotent: nat, max: Time, err: bool, ghost ids: seq<StaId>)
      requires outside.Valid() && outside.PhaseNow(s) == FirstPhase(cy)
      requires cy == FirstCycle(outside.cfg, cy.mode, cy.since, cy.batch, now)
      requires RejectedKeys(s, V.Rejected(cy.batch, cy.since, now, outside.cfg.skew)) <= outside.hist.rejected
      modifies outside, outside.store
      ensures outside.Extended() && SameRow(old(outside.Value()), outside.Value(), s)
      ensures skippedIdempotent <= |cy.todo|
      ensures RowsBooked(old(outside.book(s)), outside.book(s), |cy.todo|, skippedIdempotent, err)
      ensures err ==> outside.PhaseNow(s) == Idle
      ensures !err ==> outside.PhaseNow(s) == Finish(cy.(todo := [], max := max, ids := ids))
      ensures !err ==> Settled(outside.Value(), s, cy.since, cy.horizon, cy.batch) && max == MaxTime(cy.batch, cy.since)
    {
      if cy.todo == [] {
        BatchIsThrough(outside.Value(), outside.cfg, s, now, cy, cy.max);
        return 0, cy.max, false, [];
      }
      var targets := outside.ResolveTargets(s, cy);
      if targets.None? {
        return 0, cy.max, true, [];
      }
      ids := targets.value;
      skippedIdempotent, max, err := WriteKept(s, cy.(ids := targets.value));
      if !err {
        BatchIsThrough(outside.Value(), outside.cfg, s, now, cy, max);
      }
    }

    /** Validates and writes one batch of one stream. Without an error every row is
        accounted for and the reported maximum is the batch's own. */
    method ProcessStream(s: StreamId, mode: Mode, since: Time, batch: seq<Observation>, ghost horizon: Time)
      returns (res: Result, err: bool, ghost ids: seq<StaId>)
      requires outside.Valid() && horizon == outside.clock + outside.cfg.skew
      requires outside.PhaseNow(s) == Start(outside.cfg, mode, since, batch, outside.clock)
      requires RejectedKeys(s, V.Rejected(batch, since, outside.clock, outside.cfg.skew)) <= outside.hist.rejected
      modifies outside, outside.store
      ensures outside.Extended() && SameRow(old(outside.Value()), outside.Value(), s)
      ensures res.received == |batch| && res.accepted + |res.rejected| == |batch|
      ensures res.skippedIdempotent <= res.accepted
      ensures RowsBooked(old(outside.book(s)), outside.book(s), res.accepted, res.skippedIdempotent, err)
      ensures res.accepted == |V.Kept(batch, since, horizon, 0)| && res.rejected == V.Rejected(batch, since, horizon, 0)
      ensures err ==> outside.PhaseNow(s) == Idle
      ensures !err ==> res.maxPhenomenonTime == MaxTime(batch, since)
      ensures !err ==> Settled(outside.Value(), s, since, horizon, batch)
      ensures !err ==>
                outside.PhaseNow(s) == Finish(Cycle(mode, since, horizon, batch, [], res.maxPhenomenonTime, ids))
    {
      var now := outside.Now();
      var cy, rejected := ValidateBatch(mode, since, now, batch);
      var skipped, top;
      skipped, top, err, ids := WriteBatch(s, cy, now);
      res := Result(|batch|, |cy.todo|, skipped, rejected, top);
    }
  }

  /** Where a validated batch stands. */
  function FirstPhase(cy: Cycle): Phase {
    if cy.todo == [] then Finish(cy) else Resolving(cy)
  }

  /** The phase once `i` kept observations are done. */
  function AfterRows(cy: Cycle, i: nat, max: Time): Phase
    requires i <= |cy.todo|
  {
    if i < |cy.todo| then Checking(cy.(todo := cy.todo[i..], max := max)) else Finish(cy.(todo := [], max := max))
  }

  /** The first `i` kept observations are logged or refused. */
  predicate DoneUpTo(w: World, s: StreamId, kept: seq<Observation>, i: nat)
    requires i <= |kept|
  {
    forall j :: 0 <= j < i ==> Written(w, s, kept[j].phenomenonTime)
  }

  /** `m` is the greatest of the start and the first `i` kept times. */
  predicate MaxUpTo(kept: seq<Observation>, i: nat, start: Time, m: Time)
    requires i <= |kept|
  {
    && start <= m
    && (forall j :: 0 <= j < i ==> kept[j].phenomenonTime <= m)
    && (m == start || exists j :: 0 <= j < i && kept[j].phenomenonTime == m)
  }

  /** The first `i` kept observations are done, booked, and covered by `max`. */
  predicate RowsDone(
    w: World, s: StreamId, cy: Cycle, i: nat, max: Time, b: Ledger, b': Ledger, skipped: nat)
    requires i <= |cy.todo|
  {
    && PhaseOf(w, s) == AfterRows(cy, i, max)
    && skipped <= i && RowsBooked(b, b', i, skipped, false)
    && DoneUpTo(w, s, cy.todo, i) && MaxUpTo(cy.todo, i, cy.max, max)
  }

  lemma DoneStep(w: World, w': World, s: StreamId, kept: seq<Observation>, i: nat)
    requires i < |kept| && DoneUpTo(w, s, kept, i) && HistoryGrew(w, w')
    requires Written(w', s, kept[i].phenomenonTime)
    ensures DoneUpTo(w', s, kept, i + 1)
  {
  }

  /** What Filter and the rejection maximum say about the batch as a whole. */
  lemma FilteredCycle(cfg: Config, mode: Mode, since: Time, batch: seq<Observation>, now: Time)
    ensures var cy := FirstCycle(cfg, mode, since, batch, now);
            && since <= cy.max && (cy.max == since || HasTime(batch, cy.max))
            && (forall o :: o in cy.todo <==> o in batch && V.Passes(o, since, now, cfg.skew))
            && (forall o :: o in batch && o !in cy.todo ==> o.phenomenonTime <= cy.max)
  {
    var rejected := V.Rejected(batch, since, now, cfg.skew);
    V.KeptMembers(batch, since, now, cfg.skew);
    RejectedMembers(batch, since, now, cfg.skew);
    MaxRejectedIsMax(rejected, since);
    var cy := FirstCycle(cfg, mode, since, batch, now);
    if cy.max != since {
      var r :| r in rejected && r.observation.phenomenonTime == cy.max;
      TimeOf(batch, r.observation);
    }
  }

  lemma BatchSettled(w: World, cfg: Config, s: StreamId, since: Time, batch: seq<Observation>, now: Time, kept: seq<Observation>)
    requires kept == V.Kept(batch, since, now, cfg.skew) && DoneUpTo(w, s, kept, |kept|)
    requires RejectedKeys(s, V.Rejected(batch, since, now, cfg.skew)) <= w.hist.rejected
    ensures Settled(w, s, since, now + cfg.skew, batch)
  {
    V.KeptMembers(batch, since, now, cfg.skew);
    RejectedMembers(batch, since, now, cfg.skew);
    forall o | o in batch
      ensures if o in kept
              then Written(w, s, o.phenomenonTime)
              else LogKey(s, o.phenomenonTime) in w.hist.rejected
    {
      if o in kept {
        var j :| 0 <= j < |kept| && kept[j] == o;
      } else {
        var r :| r in V.Rejected(batch, since, now, cfg.skew) && r.observation == o;
        assert LogKey(s, r.observation.phenomenonTime) in RejectedKeys(s, V.Rejected(batch, since, now, cfg.skew));
      }
    }
  }

  lemma BatchIsThrough(w: World, cfg: Config, s: StreamId, now: Time, cy: Cycle, m: Time)
    requires cy == FirstCycle(cfg, cy.mode, cy.since, cy.batch, now)
    requires DoneUpTo(w, s, cy.todo, |cy.todo|) && MaxUpTo(cy.todo, |cy.todo|, cy.max, m)
    requires RejectedKeys(s, V.Rejected(cy.batch, cy.since, now, cfg.skew)) <= w.hist.rejected
    ensures Settled(w, s, cy.since, cy.horizon, cy.batch) && m == MaxTime(cy.batch, cy.since)
  {
    BatchSettled(w, cfg, s, cy.since, cy.batch, now, cy.todo);
    MaxReached(cfg, cy.mode, cy.since, cy.batch, now, cy.todo, cy.max, m);
  }

  lemma MaxReached(
    cfg: Config, mode: Mode, since: Time, batch: seq<Observation>, now: Time,
    kept: seq<Observation>, start: Time, m: Time)
    requires kept == V.Kept(batch, since, now, cfg.skew)
    requires start == MaxRejected(V.Rejected(batch, since, now, cfg.skew), since)
    requires MaxUpTo(kept, |kept|, start, m)
    ensures m == MaxTime(batch, since)
  {
    var cy := FirstCycle(cfg, mode, since, batch, now);
    FilteredCycle(cfg, mode, since, batch, now);
    if m != cy.max {
      var j :| 0 <= j < |cy.todo| && cy.todo[j].phenomenonTime == m;
      TimeOf(batch, cy.todo[j]);
    }
    forall o | o in batch ensures o.phenomenonTime <= m {
      if o in cy.todo {
        var j :| 0 <= j < |cy.todo| && cy.todo[j] == o;
      }
    }
    MaxTimeIs(batch, since, m);
  }

  /** What a cycle may do to its cursor: move it to the newest time of a batch that was dealt
      with to the last row. */
  predicate CursorRule(
    w: World, before: Option<Time>, since: Time, horizon: Time, rows: seq<Observation>, s: StreamId)
  {
    before != CursorOf(w, s) ==>
      && CursorOf(w, s) == Some(MaxTime(rows, since)) && MaxTime(rows, since) > since
      && Settled(w, s, since, horizon, rows)
  }

  /** The rule for a cycle that may have fetched nothing, and started at a set cursor. */
  predicate CycleRule(
    w: World, before: Option<Time>, rows: Option<seq<Observation>>, since: Time, horizon: Time, s: StreamId)
  {
    match rows
    case None => CursorOf(w, s) == before
    case Some(fetched) =>
      && CursorRule(w, before, since, horizon, fetched, s)
      && (before.Some? && before.value != ZERO_TIME ==> since == before.value)
  }

  lemma CycleRuleAcross(
    w: World, w': World, before: Option<Time>, rows: Option<seq<Observation>>, since: Time, horizon: Time, s: StreamId)
    requires CycleRule(w, before, rows, since, horizon, s) && SameRow(w, w', s)
    ensures CycleRule(w', before, rows, since, horizon, s)
  {
    if rows.Some? {
      RuleAcross(w, w', before, since, horizon, rows.value, s);
    }
  }

  lemma RuleAcross(
    w: World, w': World, before: Option<Time>, since: Time, horizon: Time, rows: seq<Observation>, s: StreamId)
    requires CursorRule(w, before, since, horizon, rows, s) && SameRow(w, w', s)
    ensures CursorRule(w', before, since, horizon, rows, s)
  {
  }

  predicate SameCalls(b: Ledger, b': Ledger) {
    b'.asked == b.asked && b'.fetched == b.fetched && b'.polled == b.polled
  }

  /** The event records the poll of `s`, or tries to, however the cycle went. */
  predicate PollRecorded(e: Event, s: StreamId, after: World) {
    && (e == Effect(s, PolledDone) || e == Effect(s, PolledFailed))
    && (e == Effect(s, PolledDone) && s in after.db.rows ==> after.db.rows[s].lastPolledAt == Some(after.clock))
  }

  /** One fetch, which failed unless something came back. */
  predicate FetchBooked(b: Ledger, b': Ledger, answered: bool) {
    && b'.asked == b.asked && b'.fetched == b.fetched + 1 && b'.polled == b.polled
    && (!answered ==> b' == CountFail(CountFetch(b)))
  }

  /** The cursor was asked for once; unless the stream has no row or a call failed there was
      a fetch, and it was answered. */
  predicate CallsBooked(b: Ledger, b': Ledger, isRow: bool, answered: bool) {
    && b'.asked == b.asked + 1 && b'.polled == b.polled
    && (if answered then b'.fetched == b.fetched + 1 else isRow ==> b'.failed == b.failed + 1)
  }

  /** ... and the poll was recorded once. */
  predicate CycleBooked(b: Ledger, b': Ledger, isRow: bool, answered: bool) {
    b'.polled == b.polled + 1 && CallsBooked(b, b'.(polled := b.polled), isRow, answered)
  }

  class Scheduler {
    const outside: Outside
    const processor: Processor

    constructor (processor: Processor)
      ensures this.processor == processor && this.outside == processor.outside
    {
      this.processor, this.outside := processor, processor.outside;
    }

    /** The ingest call and, when it covered everything, the cursor's move. */
    method IngestAndAdvance(s: StreamId, since: Time, rows: seq<Observation>, ghost horizon: Time)
      requires processor.outside == outside && outside.Valid() && horizon == outside.clock + outside.cfg.skew
      requires outside.PhaseNow(s) == Start(outside.cfg, Poll, since, rows, outside.clock)
      requires RejectedKeys(s, V.Rejected(rows, since, outside.clock, outside.cfg.skew)) <= outside.hist.rejected
      modifies outside, outside.store
      ensures outside.Extended() && outside.PhaseNow(s) == Idle
      ensures CursorRule(outside.Value(), old(CursorOf(outside.Value(), s)), since, horizon, rows, s)
      ensures HistoryGrew(old(outside.Value()), outside.Value())
      ensures SameCalls(old(outside.book(s)), outside.book(s))
      ensures s in outside.store.rows <==> old(s in outside.store.rows)
    {
      var res, err, ids := processor.ProcessStream(s, Poll, since, rows, horizon);
      if !err {
        ghost var mid := outside.Value();
        if res.maxPhenomenonTime > since {
          var cy := outside.PhaseNow(s).cy;
          var _ := outside.AdvancePollCursor(s, cy);
        }
        SettledAcross(mid, outside.Value(), s, since, horizon, rows);
      }
    }

    /** The fetch, and what follows when it is answered. */
    method FetchAndIngest(s: StreamId, since: Time) returns (rows: Option<seq<Observation>>, ghost horizon: Time)
      requires processor.outside == outside
      requires outside.Valid() && outside.PhaseNow(s) == Fetching(since)
      modifies outside, outside.store
      ensures outside.Extended() && outside.PhaseNow(s) == Idle
      ensures WasHorizon(outside.cfg, outside.first, outside.trace, old(|outside.trace|), horizon)
      ensures if rows.None? then CursorOf(outside.Value(), s) == old(CursorOf(outside.Value(), s))
              else CursorRule(outside.Value(), old(CursorOf(outside.Value(), s)), since, horizon, rows.value, s)
      ensures FetchBooked(old(outside.book(s)), outside.book(s), rows.Some?)
      ensures s in outside.store.rows <==> old(s in outside.store.rows)
    {
      rows := outside.FetchObservations(s, since);
      ghost var so := outside.trace;
      horizon := outside.clock + outside.cfg.skew;
      IsHorizon(outside.cfg, outside.first, so);
      if rows.Some? {
        IngestAndAdvance(s, since, rows.value, horizon);
      }
      HorizonAcross(outside.cfg, outside.first, so, outside.trace, |so|, old(|outside.trace|), horizon);
    }

    /** Poll, ingest, advance for one stream; `rows` is what was fetched, if anything, and
        `horizon` what the clock allowed when it was validated. The cursor moves only after
        every row was dealt with as that validation demands, and then to their maximum. */
    method PollAndIngest(s: StreamId)
      returns (rows: Option<seq<Observation>>, since: Time, ghost horizon: Time)
      requires processor.outside == outside
      requires outside.Valid() && outside.PhaseNow(s) == Idle
      modifies outside, outside.store
      ensures outside.Extended() && outside.PhaseNow(s) == Idle
      ensures WasHorizon(outside.cfg, outside.first, outside.trace, old(|outside.trace|), horizon)
      ensures CycleRule(outside.Value(), old(CursorOf(outside.Value(), s)), rows, since, horizon, s)
      ensures CallsBooked(old(outside.book(s)), outside.book(s), s in outside.store.rows, rows.Some?)
    {
      rows, since, horizon := None, ZERO_TIME, outside.clock + outside.cfg.skew;
      ghost var so := outside.trace;
      IsHorizon(outside.cfg, outside.first, so);
      var cursor := outside.GetPollCursor(s);
      if cursor.None? {
        HorizonAcross(outside.cfg, outside.first, so, outside.trace, |so|, |so|, horizon);
        return;
      }
      since := cursor.value;
      if since == ZERO_TIME {
        var now := outside.Now();
        since := now - outside.cfg.lookback;
      }
      ghost var from := |outside.trace|;
      rows, horizon := FetchAndIngest(s, since);
      HorizonAcross(outside.cfg, outside.first, outside.trace, outside.trace, from, |so|, horizon);
    }

    /** One cycle of one stream. However it ends, the poll is recorded last, or an attempt
        was made to. */
    method RunDatastreamCycle(s: StreamId)
      returns (rows: Option<seq<Observation>>, since: Time, ghost horizon: Time)
      requires processor.outside == outside
      requires outside.Valid() && outside.PhaseNow(s) == Idle
      modifies outside, outside.store
      ensures outside.Extended() && outside.PhaseNow(s) == Idle
      ensures WasHorizon(outside.cfg, outside.first, outside.trace, old(|outside.trace|), horizon)
      ensures CycleRule(outside.Value(), old(CursorOf(outside.Value(), s)), rows, since, horizon, s)
      ensures CycleBooked(old(outside.book(s)), outside.book(s), s in outside.store.rows, rows.Some?)
      ensures |outside.trace| > 0 && PollRecorded(outside.trace[|outside.trace| - 1], s, outside.Value())
    {
      rows, since, horizon := PollAndIngest(s);
      ghost var mid, so := outside.Value(), outside.trace;
      var _ := outside.SetLastPolledAt(s);
      HorizonAcross(outside.cfg, outside.first, so, outside.trace, old(|outside.trace|), old(|outside.trace|), horizon);
      CycleRuleAcross(mid, outside.Value(), old(CursorOf(outside.Value(), s)), rows, since, horizon, s);
    }
  }

  /** Whatever the methods above have done to it, the outside never holds a second copy,
      every logged row is backed as LogMeaning says, and no cycle lost track of its batch. */
  lemma ReachableOutsideIsSound(o: Outside)
    requires o.Valid()
    ensures forall l, k :: Copies(o.Value(), l, k) <= 1
    ensures L.LogInv(o.cfg, o.Value()) && ProgressInv(o.Value())
  {
    L.FreshLogInv(o.cfg, o.first);
    L.RunKeepsLogInv(o.cfg, o.first, o.trace);
    FreshProgress(o.first);
    RunKeepsProgress(o.cfg, o.first, o.trace);
  }
}
