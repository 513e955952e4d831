/** The freshness alert of internal/watchdog/watchdog.go: a stored state machine with
    hysteresis, ticked by a process whose reads, writes and write replies may fail. */
module Watchdog {
  import opened Canonical

  /** `Other` is a status text the code does not know. */
  datatype Status = OK | StalePending | Stale | Other(text: string)

  datatype State = State(status: Status, since: Time, lastFired: Option<Time>)

  datatype Alert = FiredStale | FiredRecovered

  datatype Snapshot = Snapshot(total: nat, stale: nat)

  /** What SetWatchdogState answers; a failed write may have been committed all the same. */
  datatype Reply = Done | Failed(committed: bool)

  /** One tick: `snap` is None when the snapshot could not be read. */
  datatype Tick = Tick(now: Time, snap: Option<Snapshot>, stateRead: bool, reply: Reply)

  predicate IsStale(snap: Snapshot) {
    var threshold := if snap.total / 100 < 1 then 1 else snap.total / 100;
    snap.stale > threshold
  }

  function Step(cur: State, staleNow: bool, now: Time): (State, Option<Alert>) {
    match cur.status
    case OK =>
      if staleNow then (State(StalePending, now, cur.lastFired), None) else (cur, None)
    case StalePending =>
      if staleNow then (State(Stale, now, Some(now)), Some(FiredStale))
      else (State(OK, now, cur.lastFired), None)
    case Stale =>
      if staleNow then (cur, None) else (State(OK, now, Some(now)), Some(FiredRecovered))
    case Other(_) => (State(OK, now, cur.lastFired), None)
  }

  /** The stored state and the alerts fired so far. */
  datatype World = World(stored: State, fires: seq<Alert>)

  /** The tick got as far as deciding, and what it decided is in the store. */
  predicate Effective(w: World, t: Tick) {
    && t.snap.Some? && t.stateRead
    && var (next, _) := Step(w.stored, IsStale(t.snap.value), t.now);
       (next != w.stored ==> t.reply.Done? || t.reply.committed)
  }

  function TickOnce(w: World, t: Tick): World {
    if !Effective(w, t) then w
    else
      var (next, alert) := Step(w.stored, IsStale(t.snap.value), t.now);
      World(next, if alert.Some? && t.reply.Done? then w.fires + [alert.value] else w.fires)
  }

  function Run(w: World, ts: seq<Tick>): World {
    if ts == [] then w else TickOnce(Run(w, ts[..|ts| - 1]), ts[|ts| - 1])
  }

  /** A tick counts when both reads succeeded and what it decided is stored: written, or
      committed although the write looked failed, or nothing to write because a calm or an
      alarmed state saw what it expects. */
  lemma EffectiveIff(w: World, t: Tick)
    ensures Effective(w, t) <==>
              && t.snap.Some? && t.stateRead
              && (|| t.reply.Done? || t.reply.committed
                  || (w.stored.status.OK? && !IsStale(t.snap.value))
                  || (w.stored.status.Stale? && IsStale(t.snap.value)))
  {
  }

  class Service {
    var stored: State
    var fires: seq<Alert>

    function Value(): World
      reads this
    {
      World(stored, fires)
    }

    constructor (stored: State)
      ensures Value() == World(stored, [])
    {
      this.stored, fires := stored, [];
    }

    /** One tick against the store. An alert goes out only after its state is known to be
        stored. */
    method Tick(t: Tick)
      modifies this
      ensures Value() == TickOnce(old(Value()), t)
    {
      if t.snap.None? {
        return;
      }
      if !t.stateRead {
        return;
      }
      var staleNow := IsStale(t.snap.value);
      var (next, transition) := Step(stored, staleNow, t.now);
      if next != stored {
        if t.reply.Done? || t.reply.committed {
          stored := next;
        }
        if t.reply.Failed? {
          return;
        }
      }
      // A transition always comes with a new state, so its write has succeeded here.
      if transition.Some? {
        fires := fires + [transition.value];
      }
    }
  }

  // ---- The threshold --------------------------------------------------------------------

  /** Floor division decides exactly "more than one, and more than one percent". */
  lemma IsStaleIsExact(snap: Snapshot)
    ensures IsStale(snap) <==> snap.stale as real > 1.0 && snap.stale as real > snap.total as real / 100.0
  {
    var q, r := snap.total / 100, snap.total % 100;
    assert snap.total == 100 * q + r;
    assert snap.total as real / 100.0 == q as real + r as real / 100.0;
  }

  // ---- The state after any run ------------------------------------------------------------

  /** What each effective tick of the run saw, in order. */
  function Seen(w: World, ts: seq<Tick>): seq<bool> {
    if ts == [] then []
    else
      var before, t := ts[..|ts| - 1], ts[|ts| - 1];
      if Effective(Run(w, before), t) then Seen(w, before) + [IsStale(t.snap.value)] else Seen(w, before)
  }

  /** How many of the last ticks in a row were stale. */
  function TrailingStale(seen: seq<bool>): nat {
    if seen == [] || !seen[|seen| - 1] then 0 else 1 + TrailingStale(seen[..|seen| - 1])
  }

  /** From ok, the stored status is ok, pending or stale exactly when the last effective
      ticks have been stale 0, 1 or more times in a row, whatever failed in between. */
  lemma {:induction false} StatusCountsStaleTicks(w: World, ts: seq<Tick>)
    requires w.stored.status == OK
    ensures var n := TrailingStale(Seen(w, ts));
            Run(w, ts).stored.status == if n == 0 then OK else if n == 1 then StalePending else Stale
  {
    if ts != [] {
      var before, t := ts[..|ts| - 1], ts[|ts| - 1];
      StatusCountsStaleTicks(w, before);
      if Effective(Run(w, before), t) {
        var seen := Seen(w, before);
        assert (seen + [IsStale(t.snap.value)])[..|seen|] == seen;
      }
    }
  }

  /** A status text the code does not know is set right by the next effective tick, without
      an alert. */
  lemma UnknownStatusHeals(w: World, t: Tick)
    requires w.stored.status.Other? && Effective(w, t)
    ensures TickOnce(w, t) == World(State(OK, t.now, w.stored.lastFired), w.fires)
  {
  }

  // ---- The alerts of any run ----------------------------------------------------------------

  /** The stored state entering or leaving stale, in order. */
  function Crossings(w: World, ts: seq<Tick>): seq<Alert> {
    if ts == [] then []
    else
      var before, t := ts[..|ts| - 1], ts[|ts| - 1];
      var cur := Run(w, before);
      var next := TickOnce(cur, t);
      if !cur.stored.status.Stale? && next.stored.status.Stale? then Crossings(w, before) + [FiredStale]
      else if cur.stored.status.Stale? && !next.stored.status.Stale? then Crossings(w, before) + [FiredRecovered]
      else Crossings(w, before)
  }

  predicate Alternates(alerts: seq<Alert>) {
    forall i :: 0 <= i < |alerts| ==> alerts[i] == if i % 2 == 0 then FiredStale else FiredRecovered
  }

  /** The stored state enters and leaves stale in strict alternation, and is stale exactly
      while one more entry than exits has happened. */
  lemma {:induction false} CrossingsAlternate(w: World, ts: seq<Tick>)
    requires w.stored.status == OK
    ensures Alternates(Crossings(w, ts))
    ensures Run(w, ts).stored.status.Stale? <==> |Crossings(w, ts)| % 2 == 1
  {
    if ts != [] {
      CrossingsAlternate(w, ts[..|ts| - 1]);
    }
  }

  /** When the stored status last changed, and when it last crossed into or out of stale. */
  function LastChange(w: World, ts: seq<Tick>): Time {
    if ts == [] then w.stored.since
    else
      var cur := Run(w, ts[..|ts| - 1]);
      if TickOnce(cur, ts[|ts| - 1]).stored.status != cur.stored.status then ts[|ts| - 1].now
      else LastChange(w, ts[..|ts| - 1])
  }

  function LastCrossing(w: World, ts: seq<Tick>): Option<Time> {
    if ts == [] then w.stored.lastFired
    else
      var cur := Run(w, ts[..|ts| - 1]);
      if TickOnce(cur, ts[|ts| - 1]).stored.status.Stale? != cur.stored.status.Stale? then Some(ts[|ts| - 1].now)
      else LastCrossing(w, ts[..|ts| - 1])
  }

  /** The stored stamps are the instants of the last change and of the last crossing. */
  lemma {:induction false} StampsAreTrue(w: World, ts: seq<Tick>)
    ensures Run(w, ts).stored.since == LastChange(w, ts)
    ensures w.stored.status == OK ==> Run(w, ts).stored.lastFired == LastCrossing(w, ts)
  {
    if ts != [] {
      StampsAreTrue(w, ts[..|ts| - 1]);
      if w.stored.status == OK {
        StatusCountsStaleTicks(w, ts[..|ts| - 1]);
      }
    }
  }

  /** The tick moved the stored state over the stale boundary, but its write looked failed. */
  predicate LosesAlert(w: World, t: Tick) {
    && t.reply.Failed?
    && (TickOnce(w, t).stored.status.Stale? != w.stored.status.Stale?)
  }

  predicate LosesNone(w: World, ts: seq<Tick>) {
    forall i :: 0 <= i < |ts| ==> !LosesAlert(Run(w, ts[..i]), ts[i])
  }

  lemma LosesNoneSplits(w: World, ts: seq<Tick>)
    requires ts != []
    ensures var n := |ts| - 1; LosesNone(w, ts) <==> LosesNone(w, ts[..n]) && !LosesAlert(Run(w, ts[..n]), ts[n])
  {
    var n := |ts| - 1;
    assert forall i :: 0 <= i <= n ==> ts[..n][..i] == ts[..i];
    assert forall i :: 0 <= i < n ==> ts[..n][i] == ts[i];
  }

  /** Every crossing is reported — if and only if no committed write looked failed when the
      state crossed. */
  lemma {:induction false} FiresAreCrossingsIff(w: World, ts: seq<Tick>)
    requires w.stored.status == OK && w.fires == []
    ensures |Run(w, ts).fires| <= |Crossings(w, ts)|
    ensures Run(w, ts).fires == Crossings(w, ts) <==> LosesNone(w, ts)
    ensures LosesNone(w, ts) || |Run(w, ts).fires| < |Crossings(w, ts)|
  {
    if ts != [] {
      var n := |ts| - 1;
      FiresAreCrossingsIff(w, ts[..n]);
      StatusCountsStaleTicks(w, ts[..n]);
      LosesNoneSplits(w, ts);
    }
  }

  /** How many crossings went unreported. */
  function Lost(w: World, ts: seq<Tick>): nat {
    if ts == [] then 0
    else Lost(w, ts[..|ts| - 1]) + if LosesAlert(Run(w, ts[..|ts| - 1]), ts[|ts| - 1]) then 1 else 0
  }

  predicate Sends(w: World, t: Tick) {
    |TickOnce(w, t).fires| > |w.fires|
  }

  /** Before each alert that was sent, an even number had been lost. */
  predicate LosesInPairs(w: World, ts: seq<Tick>) {
    forall i :: 0 <= i < |ts| && Sends(Run(w, ts[..i]), ts[i]) ==> Lost(w, ts[..i]) % 2 == 0
  }

  lemma LosesInPairsSplits(w: World, ts: seq<Tick>)
    requires ts != []
    ensures var n := |ts| - 1;
            LosesInPairs(w, ts) <==>
            LosesInPairs(w, ts[..n]) && (Sends(Run(w, ts[..n]), ts[n]) ==> Lost(w, ts[..n]) % 2 == 0)
  {
    var n := |ts| - 1;
    assert forall i :: 0 <= i <= n ==> ts[..n][..i] == ts[..i];
    assert forall i :: 0 <= i < n ==> ts[..n][i] == ts[i];
  }

  /** Every crossing was either reported or lost. */
  lemma {:induction false} SentOrLost(w: World, ts: seq<Tick>)
    requires w.stored.status == OK && w.fires == []
    ensures |Run(w, ts).fires| + Lost(w, ts) == |Crossings(w, ts)|
  {
    if ts != [] {
      var n := |ts| - 1;
      SentOrLost(w, ts[..n]);
      StatusCountsStaleTicks(w, ts[..n]);
    }
  }

  lemma AlternatesOneMore(alerts: seq<Alert>, a: Alert)
    ensures Alternates(alerts + [a]) <==>
            Alternates(alerts) && a == if |alerts| % 2 == 0 then FiredStale else FiredRecovered
  {
    var more := alerts + [a];
    if Alternates(more) {
      assert forall i :: 0 <= i < |alerts| ==> alerts[i] == more[i];
      assert more[|alerts|] == a;
    }
  }

  /** The alerts alternate, starting with stale, if and only if an even number of alerts had
      been lost whenever one was sent. */
  lemma {:induction false} FiresAlternateIff(w: World, ts: seq<Tick>)
    requires w.stored.status == OK && w.fires == []
    ensures Alternates(Run(w, ts).fires) <==> LosesInPairs(w, ts)
  {
    if ts != [] {
      var n := |ts| - 1;
      FiresAlternateIff(w, ts[..n]);
      LosesInPairsSplits(w, ts);
      OneMoreTick(w, ts[..n], ts[n]);
    }
  }

  /** The crossing that comes next is the alert whose turn it is if an even number were lost. */
  lemma InTurnIff(w: World, ts: seq<Tick>)
    requires w.stored.status == OK && w.fires == []
    ensures var cur := Run(w, ts);
            (cur.stored.status.Stale? <==> |cur.fires| % 2 == 1) <==> Lost(w, ts) % 2 == 0
  {
    SentOrLost(w, ts);
    CrossingsAlternate(w, ts);
    Parity(|Run(w, ts).fires|, Lost(w, ts));
  }

  lemma Parity(a: nat, b: nat)
    ensures ((a + b) % 2 == 1 <==> a % 2 == 1) <==> b % 2 == 0
  {
  }

  lemma OneMoreTick(w: World, ts: seq<Tick>, t: Tick)
    requires w.stored.status == OK && w.fires == []
    ensures var cur := Run(w, ts);
            Alternates(TickOnce(cur, t).fires) <==> Alternates(cur.fires) && (Sends(cur, t) ==> Lost(w, ts) % 2 == 0)
  {
    var cur := Run(w, ts);
    if Sends(cur, t) {
      SendsTheCrossing(w, ts, t);
      InTurnIff(w, ts);
      AlternatesOneMore(cur.fires, if cur.stored.status.Stale? then FiredRecovered else FiredStale);
    } else {
      assert TickOnce(cur, t).fires == cur.fires;
    }
  }

  /** An alert that is sent reports the crossing of its tick. */
  lemma SendsTheCrossing(w: World, ts: seq<Tick>, t: Tick)
    requires w.stored.status == OK && Sends(Run(w, ts), t)
    ensures var cur := Run(w, ts);
            TickOnce(cur, t).fires == cur.fires + [if cur.stored.status.Stale? then FiredRecovered else FiredStale]
  {
    StatusCountsStaleTicks(w, ts);
  }

  /** So without a lost alert they alternate, and say what the stored state is. */
  lemma FiresAlternate(w: World, ts: seq<Tick>)
    requires w.stored.status == OK && w.fires == [] && LosesNone(w, ts)
    ensures Alternates(Run(w, ts).fires)
    ensures Run(w, ts).stored.status.Stale? <==> |Run(w, ts).fires| % 2 == 1
  {
    NoneLost(w, ts);
    FiresAlternateIff(w, ts);
    SaysTheState(w, ts);
  }

  /** With an even number lost, the number of alerts sent says what the stored state is. */
  lemma SaysTheState(w: World, ts: seq<Tick>)
    requires w.stored.status == OK && w.fires == [] && Lost(w, ts) % 2 == 0
    ensures Run(w, ts).stored.status.Stale? <==> |Run(w, ts).fires| % 2 == 1
  {
    InTurnIff(w, ts);
  }

  lemma {:induction false} NoneLost(w: World, ts: seq<Tick>)
    requires LosesNone(w, ts)
    ensures Lost(w, ts) == 0 && LosesInPairs(w, ts)
  {
    if ts != [] {
      LosesNoneSplits(w, ts);
      LosesInPairsSplits(w, ts);
      NoneLost(w, ts[..|ts| - 1]);
    }
  }

  // Losing none is more than alternation needs. A service that starts from ok:

  function FromOk(now: Time): World {
    World(State(OK, now, None), [])
  }

  function Sees(now: Time, stale: bool, reply: Reply): Tick {
    Tick(now, Some(Snapshot(10, if stale then 10 else 0)), true, reply)
  }

  /** The only alert is lost, and then nothing is out of order. */
  function LosesLast(now: Time): seq<Tick> {
    [Sees(now, true, Done), Sees(now, true, Failed(true))]
  }

  /** A stale alert and its recovery are both lost before the next one. */
  function LosesPair(now: Time): seq<Tick> {
    LosesLast(now) + [Sees(now, false, Failed(true)), Sees(now, true, Done), Sees(now, true, Done)]
  }

  lemma AlternatesAlthoughItLoses(now: Time)
    ensures var w := FromOk(now);
            && Run(w, LosesLast(now)).fires == [] && Lost(w, LosesLast(now)) == 1 && !LosesNone(w, LosesLast(now))
            && Run(w, LosesPair(now)).fires == [FiredStale] && Lost(w, LosesPair(now)) == 2
            && Alternates(Run(w, LosesLast(now)).fires) && Alternates(Run(w, LosesPair(now)).fires)
  {
    var w, a, b := FromOk(now), LosesLast(now), LosesPair(now);
    assert a[..1][..0] == [];
    assert b[..4][..3] == b[..3] && b[..3][..2] == b[..2] == a;
    assert Run(w, a[..1]) == World(State(StalePending, now, None), []);
    assert Run(w, a) == World(State(Stale, now, Some(now)), []);
    assert Lost(w, a[..1]) == 0 && LosesAlert(Run(w, a[..1]), a[1]);
    assert Run(w, b[..3]) == World(State(OK, now, Some(now)), []);
    assert Lost(w, b[..3]) == 2;
    assert Run(w, b[..4]) == World(State(StalePending, now, Some(now)), []);
    assert Lost(w, b[..4]) == 2;
  }

  /** With one, a recovery can be the first alert ever sent. */
  lemma LostReplyStartsWithRecovered(now: Time)
    ensures var bad, good := Some(Snapshot(10, 10)), Some(Snapshot(10, 0));
            var ts := [Tick(now, bad, true, Done), Tick(now, bad, true, Failed(true)), Tick(now, good, true, Done)];
            Run(World(State(OK, now, None), []), ts).fires == [FiredRecovered]
  {
    var bad, good := Some(Snapshot(10, 10)), Some(Snapshot(10, 0));
    var w := World(State(OK, now, None), []);
    var a, b, c := Tick(now, bad, true, Done), Tick(now, bad, true, Failed(true)), Tick(now, good, true, Done);
    var ts := [a, b, c];
    assert ts[..2] == [a, b] && [a, b][..1] == [a] && [a][..0] == [];
    assert Run(w, [a]) == TickOnce(w, a);
    assert Run(w, [a, b]) == TickOnce(TickOnce(w, a), b);
  }

  /** The run without the ticks whose write failed and was not committed. */
  function WithoutFailedWrites(ts: seq<Tick>): seq<Tick> {
    if ts == [] then []
    else
      var before, t := ts[..|ts| - 1], ts[|ts| - 1];
      if t.reply == Failed(false) then WithoutFailedWrites(before) else WithoutFailedWrites(before) + [t]
  }

  /** A failed write causes neither a state change nor an alert: such ticks might as well
      not have happened. */
  lemma {:induction false} FailedWritesAreSilent(w: World, ts: seq<Tick>)
    ensures Run(w, WithoutFailedWrites(ts)) == Run(w, ts)
  {
    if ts != [] {
      var n := |ts| - 1;
      FailedWritesAreSilent(w, ts[..n]);
      var kept := WithoutFailedWrites(ts[..n]);
      if ts[n].reply != Failed(false) {
        assert (kept + [ts[n]])[..|kept|] == kept;
      }
    }
  }
}
