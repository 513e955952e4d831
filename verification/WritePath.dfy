/** The ingest protocol as a state machine: poll -> validate -> resolve -> (check the write
    log, probe and post each target, record) per observation -> advance the cursor
    (internal/scheduler/scheduler.go, internal/ingest/ingest.go, internal/frost/writer.go).

    Every stream has its own cycle, and a run interleaves the streams' effects freely. Each
    event is one effect and what the environment answered; a process crash, a write-log
    purge, a clock reading or a new source row may fall between any two of them. */
module WritePath {
  import opened Canonical
  import opened Store
  import V = Validator

  type Label = string
  type StaId = int

  /** An observation on one FROST server. */
  datatype ObsKey = ObsKey(datastream: StaId, time: Time)

  /** `owner` says which stream a server's Datastream belongs to: names, and so ids, of
      different streams differ. */
  datatype Config = Config(labels: seq<Label>, skew: int, lookback: int, owner: map<(Label, StaId), StreamId>)

  /** What one target made of one observation, short of a transient failure. */
  datatype Reply = Created(id: int) | Present | Conflict | Refused

  datatype Mode = Poll | Push

  /** The local variables of one ProcessStream call. `horizon` is the latest time that was
      not in the future when it validated; `todo` starts with the observation being written;
      `ids` are the Datastream ids resolved per target. */
  datatype Cycle = Cycle(
    mode: Mode, since: Time, horizon: Time, batch: seq<Observation>, todo: seq<Observation>, max: Time,
    ids: seq<StaId>)

  /** Where a stream's cycle stands: the effect it will perform next. */
  datatype Phase =
    | Idle
    | Fetching(since: Time)
    | Resolving(cy: Cycle)
    | Checking(cy: Cycle)
    | Probing(cy: Cycle, replies: seq<Reply>)
    | Posting(cy: Cycle, replies: seq<Reply>)
    | Recording(cy: Cycle, replies: seq<Reply>)
    | Advancing(cy: Cycle)

  /** What the targets answered in the attempt that recorded a row. */
  datatype Attempt = Attempt(ids: seq<StaId>, replies: seq<Reply>)

  /** What has ever happened, beyond what the tables still show. */
  datatype History = History(
    rejected: set<LogKey>,
    refused: set<LogKey>,
    logged: map<LogKey, Attempt>,
    base: map<StreamId, Time>)

  datatype World = World(
    db: Tables,
    held: map<Label, multiset<ObsKey>>,
    phases: map<StreamId, Phase>,
    clock: Time,
    hist: History)

  datatype Answer =
    | CursorRead | CursorFailed | Pushed(batch: seq<Observation>)
    | Fetched(rows: seq<Observation>) | FetchFailed
    | Resolved(ids: seq<StaId>) | ResolveFailed
    | LogRead | LogReadFailed
    | ProbeAnswered | ProbeRefused | ProbeFailed
    | PostCreated(id: int) | PostConflict | PostRefused | PostFailed(landed: bool)
    | RecordDone | RecordFailed(committed: bool)
    | AdvanceDone | AdvanceFailed(applied: bool)
    | PolledDone | PolledFailed

  datatype Event =
    | Effect(s: StreamId, a: Answer)
    | Tick(now: Time)
    | Crash
    | Purge(cutoff: Time)

  // ---- Readings of the world ----------------------------------------------------------

  function PhaseOf(w: World, s: StreamId): Phase {
    if s in w.phases then w.phases[s] else Idle
  }

  function CursorOf(w: World, s: StreamId): Option<Time> {
    if s in w.db.rows then w.db.rows[s].pollCursor else None
  }

  /** How many copies of `k` the server `l` holds. */
  function Copies(w: World, l: Label, k: ObsKey): nat {
    if l in w.held then w.held[l][k] else 0
  }

  function LabelAt(cfg: Config, i: nat): Label {
    if i < |cfg.labels| then cfg.labels[i] else ""
  }

  function IdAt(ids: seq<StaId>, i: nat): StaId {
    if i < |ids| then ids[i] else 0
  }

  function HeadTime(cy: Cycle): Time {
    if cy.todo != [] then cy.todo[0].phenomenonTime else cy.since
  }

  /** The observation being written, as target `i` would store it. */
  function KeyAt(cy: Cycle, i: nat): ObsKey {
    ObsKey(IdAt(cy.ids, i), HeadTime(cy))
  }

  predicate Wrote(replies: seq<Reply>) {
    exists i :: 0 <= i < |replies| && replies[i].Created?
  }

  /** No fresh create and at least one permanent refusal. */
  predicate Dropped(replies: seq<Reply>) {
    !Wrote(replies) && Refused in replies
  }

  /** The id the log row carries: the first non-zero one a create returned, else 0. */
  function FirstCreatedId(replies: seq<Reply>): int {
    if replies == [] then 0
    else
      var id := FirstCreatedId(replies[..|replies| - 1]);
      if id == 0 && replies[|replies| - 1].Created? then replies[|replies| - 1].id else id
  }

  /** It is the first non-zero id a create returned. */
  lemma {:induction false} FirstCreatedIdIsFirst(replies: seq<Reply>)
    ensures var id := FirstCreatedId(replies);
            if id == 0 then forall i :: 0 <= i < |replies| && replies[i].Created? ==> replies[i].id == 0
            else exists i :: 0 <= i < |replies| && replies[i] == Created(id)
                   && forall j :: 0 <= j < i && replies[j].Created? ==> replies[j].id == 0
  {
    if replies != [] {
      var n := |replies| - 1;
      FirstCreatedIdIsFirst(replies[..n]);
      var before := FirstCreatedId(replies[..n]);
      if before != 0 {
        var i :| 0 <= i < n && replies[..n][i] == Created(before)
                 && forall j :: 0 <= j < i && replies[..n][j].Created? ==> replies[..n][j].id == 0;
        assert replies[i] == Created(before);
        forall j | 0 <= j < i && replies[j].Created? ensures replies[j].id == 0 {
          assert replies[..n][j] == replies[j];
        }
      } else {
        forall j | 0 <= j < n && replies[j].Created? ensures replies[j].id == 0 {
          assert replies[..n][j] == replies[j];
        }
        if FirstCreatedId(replies) != 0 {
          assert replies[n] == Created(FirstCreatedId(replies));
        }
      }
    }
  }

  function MaxRejected(rejected: seq<V.Rejection>, start: Time): Time {
    if rejected == [] then start
    else
      var r := rejected[|rejected| - 1];
      var max := MaxRejected(rejected[..|rejected| - 1], start);
      if V.IsDefinitivelyRejected(r.reason) then Max(max, r.observation.phenomenonTime) else max
  }

  function MaxTime(obs: seq<Observation>, start: Time): Time {
    if obs == [] then start
    else Max(MaxTime(obs[..|obs| - 1], start), obs[|obs| - 1].phenomenonTime)
  }

  // ---- Control flow of a cycle --------------------------------------------------------

  /** ProcessStream has returned without an error. */
  function Finish(cy: Cycle): Phase {
    if cy.mode.Poll? && cy.max > cy.since then Advancing(cy) else Idle
  }

  /** The first observation of `todo` is covered: written, skipped or dropped. */
  function Covered(cy: Cycle): Phase {
    if cy.todo == [] then Idle
    else
      var next := cy.(todo := cy.todo[1..], max := Max(cy.max, cy.todo[0].phenomenonTime));
      if next.todo == [] then Finish(next) else Checking(next)
  }

  function AfterReply(cfg: Config, cy: Cycle, replies: seq<Reply>): Phase {
    if |replies| < |cfg.labels| then Probing(cy, replies)
    else if Dropped(replies) then Covered(cy)
    else Recording(cy, replies)
  }

  function Start(cfg: Config, mode: Mode, since: Time, batch: seq<Observation>, clock: Time): Phase {
    var kept := V.Kept(batch, since, clock, cfg.skew);
    var max := MaxRejected(V.Rejected(batch, since, clock, cfg.skew), since);
    var cy := Cycle(mode, since, clock + cfg.skew, batch, kept, max, []);
    if kept == [] then Finish(cy) else Resolving(cy)
  }

  // ---- Steps --------------------------------------------------------------------------

  /** What one effect does outside the cycle's own control flow. */
  datatype Deed =
    | Nothing
    | Reject(mode: Mode, since: Time, batch: seq<Observation>)
    | Make(l: Label, k: ObsKey)
    | Refuse(at: Time)
    | Insert(cy: Cycle, replies: seq<Reply>)
    | MoveCursor(cy: Cycle)
    | MarkPolled

  /** Where the cycle goes next, and the deed done on the way. */
  datatype Move = Move(next: Phase, does: Deed)

  function IdleMove(cfg: Config, w: World, s: StreamId, a: Answer): Move {
    match a
    case CursorRead =>
      if s !in w.db.rows then Move(Idle, Nothing)
      else
        var c := w.db.rows[s].pollCursor;
        var cursor := if c.Some? then c.value else ZERO_TIME;
        Move(Fetching(if cursor == ZERO_TIME then w.clock - cfg.lookback else cursor), Nothing)
    case Pushed(batch) => Move(Start(cfg, Push, ZERO_TIME, batch, w.clock), Reject(Push, ZERO_TIME, batch))
    case PolledDone => Move(Idle, MarkPolled)
    case _ => Move(Idle, Nothing)
  }

  function FetchingMove(cfg: Config, w: World, since: Time, a: Answer): Move {
    match a
    case Fetched(rows) => Move(Start(cfg, Poll, since, rows, w.clock), Reject(Poll, since, rows))
    case FetchFailed => Move(Idle, Nothing)
    case _ => Move(Fetching(since), Nothing)
  }

  function ResolvingMove(cfg: Config, cy: Cycle, a: Answer): Move {
    match a
    case Resolved(ids) =>
      Move(if |ids| == |cfg.labels| then Checking(cy.(ids := ids)) else Resolving(cy), Nothing)
    case ResolveFailed => Move(Idle, Nothing)
    case _ => Move(Resolving(cy), Nothing)
  }

  function CheckingMove(cfg: Config, w: World, s: StreamId, cy: Cycle, a: Answer): Move {
    match a
    case LogRead =>
      Move(if LogKey(s, HeadTime(cy)) in w.db.log then Covered(cy) else AfterReply(cfg, cy, []), Nothing)
    case LogReadFailed => Move(Idle, Nothing)
    case _ => Move(Checking(cy), Nothing)
  }

  /** A target answered without creating anything. */
  function ReplyMove(cfg: Config, cy: Cycle, replies: seq<Reply>): Move {
    Move(AfterReply(cfg, cy, replies),
         if |replies| >= |cfg.labels| && Dropped(replies) then Refuse(HeadTime(cy)) else Nothing)
  }

  function ProbingMove(cfg: Config, w: World, cy: Cycle, replies: seq<Reply>, a: Answer): Move {
    match a
    case ProbeAnswered =>
      if Copies(w, LabelAt(cfg, |replies|), KeyAt(cy, |replies|)) > 0
      then ReplyMove(cfg, cy, replies + [Present])
      else Move(Posting(cy, replies), Nothing)
    case ProbeRefused => ReplyMove(cfg, cy, replies + [Refused])
    case ProbeFailed => Move(Idle, Nothing)
    case _ => Move(Probing(cy, replies), Nothing)
  }

  function PostingMove(cfg: Config, cy: Cycle, replies: seq<Reply>, a: Answer): Move {
    var make := Make(LabelAt(cfg, |replies|), KeyAt(cy, |replies|));
    match a
    case PostCreated(id) => Move(AfterReply(cfg, cy, replies + [Created(id)]), make)
    case PostConflict => ReplyMove(cfg, cy, replies + [Conflict])
    case PostRefused => ReplyMove(cfg, cy, replies + [Refused])
    case PostFailed(landed) => Move(Idle, if landed then make else Nothing)
    case _ => Move(Posting(cy, replies), Nothing)
  }

  function RecordingMove(w: World, s: StreamId, cy: Cycle, replies: seq<Reply>, a: Answer): Move {
    match a
    case RecordDone => Move(if s in w.db.rows then Covered(cy) else Idle, Insert(cy, replies))
    case RecordFailed(committed) => Move(Idle, if committed then Insert(cy, replies) else Nothing)
    case _ => Move(Recording(cy, replies), Nothing)
  }

  function AdvancingMove(cy: Cycle, a: Answer): Move {
    match a
    case AdvanceDone => Move(Idle, MoveCursor(cy))
    case AdvanceFailed(applied) => Move(Idle, if applied then MoveCursor(cy) else Nothing)
    case _ => Move(Advancing(cy), Nothing)
  }

  /** One effect of stream `s`; an answer to another question changes nothing. */
  function MoveOf(cfg: Config, w: World, s: StreamId, a: Answer): Move {
    match PhaseOf(w, s)
    case Idle => IdleMove(cfg, w, s, a)
    case Fetching(since) => FetchingMove(cfg, w, since, a)
    case Resolving(cy) => ResolvingMove(cfg, cy, a)
    case Checking(cy) => CheckingMove(cfg, w, s, cy, a)
    case Probing(cy, replies) => ProbingMove(cfg, w, cy, replies, a)
    case Posting(cy, replies) => PostingMove(cfg, cy, replies, a)
    case Recording(cy, replies) => RecordingMove(w, s, cy, replies, a)
    case Advancing(cy) => AdvancingMove(cy, a)
  }

  function RejectedKeys(s: StreamId, rejected: seq<V.Rejection>): set<LogKey> {
    set r | r in rejected :: LogKey(s, r.observation.phenomenonTime)
  }

  /** The server creates one more observation under `k`. */
  function Create(w: World, l: Label, k: ObsKey): World {
    var before := if l in w.held then w.held[l] else multiset{};
    w.(held := w.held[l := before + multiset{k}])
  }

  /** The INSERT commits when the key is free; the history keeps the attempt behind it. */
  function Commit(w: World, s: StreamId, cy: Cycle, replies: seq<Reply>): World {
    var key := LogKey(s, HeadTime(cy));
    if cy.todo == [] || RecordOutcomeOf(w.db, key) != Inserted then w
    else
      var row := LogRow(cy.todo[0].result, cy.todo[0].rawId, FirstCreatedId(replies), w.clock);
      w.(db := RecordObservationWrite(w.db, key, row),
         hist := w.hist.(logged := w.hist.logged[key := Attempt(cy.ids, replies)]))
  }

  /** The UPDATE of the cursor; the history keeps the seed of the first one. */
  function Advance(w: World, s: StreamId, cy: Cycle): World {
    var base := if CursorOf(w, s).None? then w.hist.base[s := cy.since] else w.hist.base;
    w.(db := AdvancePollCursor(w.db, s, cy.max), hist := w.hist.(base := base))
  }

  /** Rejections are remembered. */
  function Note(cfg: Config, w: World, s: StreamId, since: Time, batch: seq<Observation>): World {
    var keys := RejectedKeys(s, V.Rejected(batch, since, w.clock, cfg.skew));
    w.(hist := w.hist.(rejected := w.hist.rejected + keys))
  }

  function Perform(cfg: Config, w: World, s: StreamId, d: Deed): World {
    match d
    case Nothing => w
    case Reject(_, since, batch) => Note(cfg, w, s, since, batch)
    case Make(l, k) => Create(w, l, k)
    case Refuse(at) => w.(hist := w.hist.(refused := w.hist.refused + {LogKey(s, at)}))
    case Insert(cy, replies) => Commit(w, s, cy, replies)
    case MoveCursor(cy) => Advance(w, s, cy)
    case MarkPolled => w.(db := SetLastPolledAt(w.db, s, w.clock))
  }

  function EffectStep(cfg: Config, w: World, s: StreamId, a: Answer): World {
    var m := MoveOf(cfg, w, s, a);
    Perform(cfg, w, s, m.does).(phases := w.phases[s := m.next])
  }

  function Step(cfg: Config, w: World, e: Event): World {
    match e
    case Effect(s, a) => EffectStep(cfg, w, s, a)
    case Tick(now) => w.(clock := now)
    case Crash => w.(phases := map[])
    case Purge(cutoff) => w.(db := PurgeOldWriteLog(w.db, cutoff))
  }

  function Run(cfg: Config, w: World, es: seq<Event>): World {
    if es == [] then w else Step(cfg, Run(cfg, w, es[..|es| - 1]), es[|es| - 1])
  }

  lemma {:induction false} RunAppend(cfg: Config, w: World, xs: seq<Event>, ys: seq<Event>)
    ensures Run(cfg, w, xs + ys) == Run(cfg, Run(cfg, w, xs), ys)
  {
    if ys == [] {
      assert xs + ys == xs;
    } else {
      assert (xs + ys)[..|xs + ys| - 1] == xs + ys[..|ys| - 1];
      RunAppend(cfg, w, xs, ys[..|ys| - 1]);
    }
  }

  // ---- Standing assumption --------------------------------------------------------------

  /** Stream `s` resolves, on every target, a Datastream that belongs to it. */
  predicate OwnIds(cfg: Config, s: StreamId, ids: seq<StaId>) {
    forall i :: 0 <= i < |cfg.labels| ==>
      (LabelAt(cfg, i), IdAt(ids, i)) in cfg.owner && cfg.owner[(LabelAt(cfg, i), IdAt(ids, i))] == s
  }

  predicate OwnResolve(cfg: Config, e: Event) {
    e.Effect? && e.a.Resolved? ==> OwnIds(cfg, e.s, e.a.ids)
  }

  predicate OwnResolves(cfg: Config, es: seq<Event>) {
    forall i :: 0 <= i < |es| ==> OwnResolve(cfg, es[i])
  }
}
