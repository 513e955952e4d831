/** The synthetic adapter (internal/adapters/dummy/dummy.go): one reading per multiple of
    the cadence, which makes it the adapter that keeps the ingest core's bargain. */
module Dummy {
  import opened Canonical
  import opened Store
  import opened WritePath
  import G = GapFree
  import S = Sulo
  import V = Validator
  import opened CursorMeaning
  import opened AtMostOnce

  // ---- The curve ------------------------------------------------------------------------

  /** fillCycle: twelve hours, in nanoseconds. */
  const FILL_CYCLE := 12 * 3600 * 1_000_000_000

  /** Go's remainder takes the sign of the dividend. */
  function GoRem(a: int, b: int): int
    requires b > 0
  {
    if a >= 0 then a % b else -((-a) % b)
  }

  function FillLevelAt(t: Time, phase: int): (pct: real)
    ensures 0.0 <= pct < 100.0
  {
    var rem := GoRem(Int64(S.UnixNano(t) + phase), FILL_CYCLE);
    var elapsed := if rem < 0 then rem + FILL_CYCLE else rem;
    var pct := elapsed as real / FILL_CYCLE as real * 100.0;
    if pct < 0.0 then 0.0 else if pct > 100.0 then 100.0 else pct
  }

  /** How often the sum has wrapped round the int64 range. */
  function Wraps(t: Time, phase: int): int {
    (t - S.UNIX_EPOCH + phase + TWO_TO_THE_63) / TWO_TO_THE_64
  }

  lemma GoRemIsMod(a: int)
    ensures var rem := GoRem(a, FILL_CYCLE);
            (if rem < 0 then rem + FILL_CYCLE else rem) == a % FILL_CYCLE
  {
  }

  /** Wrapping before and after the addition is wrapping once. */
  lemma WrapOfWrap(n: int, phase: int)
    ensures Int64(Int64(n) + phase) == n + phase - (n + phase + TWO_TO_THE_63) / TWO_TO_THE_64 * TWO_TO_THE_64
  {
    var k := (n + TWO_TO_THE_63) / TWO_TO_THE_64;
    Int64IsMod(n);
    assert Int64(n) == n - k * TWO_TO_THE_64;
    Int64IsMod(Int64(n) + phase);
  }

  /** The curve is the sawtooth of the wrapped instant. */
  lemma FillLevelIsSawtooth(t: Time, phase: int)
    ensures var x := t - S.UNIX_EPOCH + phase - Wraps(t, phase) * TWO_TO_THE_64;
            FillLevelAt(t, phase) == (x % FILL_CYCLE) as real / FILL_CYCLE as real * 100.0
  {
    WrapOfWrap(t - S.UNIX_EPOCH, phase);
    GoRemIsMod(t - S.UNIX_EPOCH + phase - Wraps(t, phase) * TWO_TO_THE_64);
  }

  /** The curve repeats after twelve hours — if and only if no int64 wrap falls between. */
  lemma PeriodicIff(t: Time, phase: int)
    ensures FillLevelAt(t + FILL_CYCLE, phase) == FillLevelAt(t, phase) <==>
            Wraps(t + FILL_CYCLE, phase) == Wraps(t, phase)
  {
    var x := t - S.UNIX_EPOCH + phase - Wraps(t, phase) * TWO_TO_THE_64;
    FillLevelIsSawtooth(t, phase);
    FillLevelIsSawtooth(t + FILL_CYCLE, phase);
    NextWrap(t - S.UNIX_EPOCH + phase + TWO_TO_THE_63);
    SameInCycle(x);
    WrapShiftsTheCycle(x);
    if Wraps(t + FILL_CYCLE, phase) == Wraps(t, phase) {
      RatioIsInjective(x % FILL_CYCLE, (x + FILL_CYCLE) % FILL_CYCLE);
    } else {
      RatioIsInjective(x % FILL_CYCLE, (x + FILL_CYCLE - TWO_TO_THE_64) % FILL_CYCLE);
    }
  }

  /** The last nanosecond an int64 can count, in the year 2262, breaks the period. */
  lemma WrapBreaksThePeriod()
    ensures var last := S.UNIX_EPOCH + TWO_TO_THE_63 - 1;
            FillLevelAt(last + FILL_CYCLE, 0) != FillLevelAt(last, 0)
  {
    PeriodicIff(S.UNIX_EPOCH + TWO_TO_THE_63 - 1, 0);
  }

  lemma NextWrap(y: int)
    ensures var w, w' := y / TWO_TO_THE_64, (y + FILL_CYCLE) / TWO_TO_THE_64;
            w' == w || w' == w + 1
  {
  }

  lemma SameInCycle(x: int)
    ensures (x + FILL_CYCLE) % FILL_CYCLE == x % FILL_CYCLE
  {
  }

  /** 2^64 is not a multiple of twelve hours. */
  lemma WrapShiftsTheCycle(x: int)
    ensures (x + FILL_CYCLE - TWO_TO_THE_64) % FILL_CYCLE != x % FILL_CYCLE
  {
    var q, r := x / FILL_CYCLE, x % FILL_CYCLE;
    assert x == q * FILL_CYCLE + r;
    assert TWO_TO_THE_64 == 427007 * FILL_CYCLE + TWO_TO_THE_64 % FILL_CYCLE;
  }

  lemma RatioIsInjective(a: int, b: int)
    ensures a as real / FILL_CYCLE as real * 100.0 == b as real / FILL_CYCLE as real * 100.0 <==> a == b
  {
  }

  // ---- The ticks ------------------------------------------------------------------------

  /** The first cadence boundary strictly after `since` (Time.Truncate rounds down). */
  function NextTick(since: Time, step: int): (t: Time)
    requires step > 0
    ensures since < t <= since + step
  {
    since - since % step + step
  }

  lemma MultipleOf(k: int, step: int)
    requires step > 0
    ensures (k * step) % step == 0
  {
    var q := (k * step) / step;
    assert (k - q) * step == (k * step) % step;
    if k != q {
      AtLeastOneStep(k - q, step);
    }
  }

  lemma AtLeastOneStep(d: int, step: int)
    requires step > 0 && d != 0
    ensures d * step >= step || d * step <= -step
  {
    if d >= 1 { Scaled(1, d, step); } else { Scaled(d, -1, step); }
  }

  lemma NextTickIsMultiple(since: Time, step: int)
    requires step > 0
    ensures NextTick(since, step) % step == 0
  {
    var q := since / step;
    assert NextTick(since, step) == (q + 1) * step;
    MultipleOf(q + 1, step);
  }

  /** The boundaries from `t` up to now. */
  function Boundaries(t: Time, now: Time, step: int): seq<Time>
    requires step > 0
    decreases now - t
  {
    if t > now then [] else [t] + Boundaries(t + step, now, step)
  }

  /** Every tick in (since, now], oldest first. */
  function Ticks(since: Time, now: Time, step: int): seq<Time>
    requires step > 0
  {
    Boundaries(NextTick(since, step), now, step)
  }

  function Cut<T>(s: seq<T>, limit: int): seq<T> {
    if limit > 0 && |s| > limit then s[..limit] else s
  }

  predicate Increasing(ticks: seq<Time>) {
    forall i, j :: 0 <= i < j < |ticks| ==> ticks[i] < ticks[j]
  }

  /** Oldest first, with none twice. */
  lemma {:induction false} BoundariesAscend(t: Time, now: Time, step: int)
    requires step > 0
    ensures forall i :: 0 <= i < |Boundaries(t, now, step)| ==> t <= Boundaries(t, now, step)[i] <= now
    ensures Increasing(Boundaries(t, now, step))
    decreases now - t
  {
    if t <= now {
      BoundariesAscend(t + step, now, step);
    }
  }

  lemma {:induction false} BoundariesAreTheMultiples(t: Time, now: Time, step: int, x: Time)
    requires step > 0 && t % step == 0 && x % step == 0
    ensures t <= x <= now ==> x in Boundaries(t, now, step)
    decreases now - t
  {
    if t < x <= now {
      NextTickIsStep(t, step);
      NoTickBetween(t, step, x);
      NextTickIsMultiple(t, step);
      BoundariesAreTheMultiples(t + step, now, step, x);
    }
  }

  lemma {:induction false} BoundariesAreMultiples(t: Time, now: Time, step: int, i: nat)
    requires step > 0 && t % step == 0 && i < |Boundaries(t, now, step)|
    ensures Boundaries(t, now, step)[i] % step == 0
    decreases i
  {
    if i > 0 {
      NextTickIsStep(t, step);
      NextTickIsMultiple(t, step);
      BoundariesAreMultiples(t + step, now, step, i - 1);
      assert Boundaries(t, now, step)[i] == Boundaries(t + step, now, step)[i - 1];
    }
  }

  /** The ticks are exactly the multiples of the cadence in (since, now], in order. */
  lemma TicksAreTheMultiples(since: Time, now: Time, step: int)
    requires step > 0
    ensures forall x :: x in Ticks(since, now, step) <==> since < x <= now && x % step == 0
    ensures Increasing(Ticks(since, now, step))
  {
    var t := NextTick(since, step);
    BoundariesAscend(t, now, step);
    forall x ensures x in Ticks(since, now, step) <==> since < x <= now && x % step == 0 {
      TickMembership(since, now, step, x);
    }
  }

  lemma TickMembership(since: Time, now: Time, step: int, x: Time)
    requires step > 0
    ensures x in Ticks(since, now, step) <==> since < x <= now && x % step == 0
  {
    var t := NextTick(since, step);
    NextTickIsMultiple(since, step);
    BoundariesAscend(t, now, step);
    if x in Boundaries(t, now, step) {
      var i :| 0 <= i < |Boundaries(t, now, step)| && Boundaries(t, now, step)[i] == x;
      BoundariesAreMultiples(t, now, step, i);
    } else if since < x && x % step == 0 {
      NoTickBetween(since, step, x);
      BoundariesAreTheMultiples(t, now, step, x);
    }
  }

  lemma Scaled(a: int, b: int, step: int)
    requires a <= b && step > 0
    ensures a * step <= b * step
  {
  }

  lemma NoTickBetween(since: Time, step: int, x: Time)
    requires step > 0 && since < x && x % step == 0
    ensures NextTick(since, step) <= x
  {
    var k, q := x / step, since / step;
    assert x == k * step && since == q * step + since % step;
    assert k > q by {
      if k <= q { Scaled(k, q, step); }
    }
    Scaled(q + 1, k, step);
    assert (q + 1) * step == q * step + step;
  }

  /** The vendor's reading at tick `t`. */
  function ReadingAt(thing: string, phase: int, t: Time): Observation {
    Observation(thing, FILL_LEVEL, t, t, Number(FillLevelAt(t, phase)), None, "")
  }

  function Readings(thing: string, phase: int, ticks: seq<Time>): (obs: seq<Observation>)
    ensures |obs| == |ticks|
    ensures forall i :: 0 <= i < |ticks| ==> obs[i] == ReadingAt(thing, phase, ticks[i])
  {
    seq(|ticks|, i requires 0 <= i < |ticks| => ReadingAt(thing, phase, ticks[i]))
  }

  /** What is left of the boundaries after the first `n`. */
  lemma BoundariesUnfold(all: seq<Time>, n: nat, t: Time, now: Time, step: int)
    requires step > 0 && n <= |all| && all[n..] == Boundaries(t, now, step) && t <= now
    ensures n < |all| && all[..n + 1] == all[..n] + [t]
    ensures all[n + 1..] == Boundaries(t + step, now, step)
  {
  }

  lemma NextTickIsStep(t: Time, step: int)
    requires step > 0 && t % step == 0
    ensures NextTick(t, step) == t + step
  {
  }

  /** FetchObservations: the ticks since the cursor, oldest first, cut at the limit. */
  method FetchObservations(thing: string, phase: int, property: string, since: Time, now: Time, step: int, limit: int)
    returns (out: seq<Observation>)
    requires step > 0
    ensures property != FILL_LEVEL ==> out == []
    ensures property == FILL_LEVEL ==> out == Readings(thing, phase, Cut(Ticks(since, now, step), limit))
    ensures forall o :: o in out ==>
              && o.thing == thing && o.property == FILL_LEVEL && o.raw.None?
              && o.resultTime == o.phenomenonTime && o.result == Number(FillLevelAt(o.phenomenonTime, phase))
  {
    out := [];
    if property != FILL_LEVEL {
      return;
    }
    var start := since - since % step + step;
    if start <= since {
      start := start + step;
    }
    assert start == NextTick(since, step);
    var t := start;
    ghost var all := Ticks(since, now, step);
    while t <= now
      invariant |out| <= |all| && all[|out|..] == Boundaries(t, now, step)
      invariant limit > 0 ==> |out| <= limit
      invariant out == Readings(thing, phase, all[..|out|])
      decreases now - t
    {
      if limit > 0 && |out| >= limit {
        break;
      }
      BoundariesUnfold(all, |out|, t, now, step);
      out := out + [ReadingAt(thing, phase, t)];
      t := t + step;
    }
    assert Cut(all, limit) == all[..|out|];
  }

  // ---- Catching up ------------------------------------------------------------------------

  /** The ticks delivered by fetches at the instants `nows`, each from the last tick that
      was delivered before. */
  function CatchUp(since: Time, nows: seq<Time>, step: int, limit: int): seq<Time>
    requires step > 0
  {
    if nows == [] then []
    else
      var before := CatchUp(since, nows[..|nows| - 1], step, limit);
      before + Cut(Ticks(CursorAfter(since, before), nows[|nows| - 1], step), limit)
  }

  function CursorAfter(since: Time, ticks: seq<Time>): Time {
    if ticks == [] then since else ticks[|ticks| - 1]
  }

  lemma {:induction false} BoundariesSplit(t: Time, now: Time, step: int, n: nat)
    requires step > 0 && 0 < n <= |Boundaries(t, now, step)|
    ensures var all := Boundaries(t, now, step); all[n..] == Boundaries(all[n - 1] + step, now, step)
    decreases n
  {
    var all := Boundaries(t, now, step);
    if n > 1 {
      BoundariesSplit(t + step, now, step, n - 1);
      assert all[n..] == all[1..][n - 1..];
      assert all[n - 1] == all[1..][n - 2];
    }
  }

  /** Fetching from a tick on gives the rest of the ticks. */
  lemma TicksFromTick(since: Time, now: Time, step: int, n: nat)
    requires step > 0 && n <= |Ticks(since, now, step)|
    ensures var ticks := Ticks(since, now, step);
            ticks[n..] == Ticks(CursorAfter(since, ticks[..n]), now, step)
  {
    if n > 0 {
      var ticks := Ticks(since, now, step);
      BoundariesSplit(NextTick(since, step), now, step, n);
      NextTickIsMultiple(since, step);
      BoundariesAreMultiples(NextTick(since, step), now, step, n - 1);
      NextTickIsStep(ticks[n - 1], step);
    }
  }

  /** A later clock only adds boundaries at the end. */
  lemma {:induction false} BoundariesGrow(t: Time, now: Time, later: Time, step: int)
    requires step > 0 && now <= later
    ensures Boundaries(t, now, step) <= Boundaries(t, later, step)
    decreases now - t
  {
    if t <= now {
      BoundariesGrow(t + step, now, later, step);
    }
  }

  /** However the limit cuts the fetches and whenever they happen, what they deliver end to
      end is a prefix of the one unlimited fetch made last — no tick repeated, none
      skipped — and all of it once a fetch comes back uncut. */
  lemma {:induction false} CatchUpIsTheUnlimitedFetch(since: Time, nows: seq<Time>, step: int, limit: int)
    requires step > 0 && nows != []
    requires forall i, j :: 0 <= i < j < |nows| ==> nows[i] <= nows[j]
    ensures var n := |nows| - 1;
            var before := CatchUp(since, nows[..n], step, limit);
            var all := Ticks(since, nows[n], step);
            && CatchUp(since, nows, step, limit) <= all
            && (limit <= 0 || |Ticks(CursorAfter(since, before), nows[n], step)| <= limit ==>
                  CatchUp(since, nows, step, limit) == all)
  {
    var n := |nows| - 1;
    var before, all := CatchUp(since, nows[..n], step, limit), Ticks(since, nows[n], step);
    assert before <= all by {
      if n > 0 {
        CatchUpIsTheUnlimitedFetch(since, nows[..n], step, limit);
        BoundariesGrow(NextTick(since, step), nows[n - 1], nows[n], step);
      }
    }
    assert all[..|before|] == before;
    TicksFromTick(since, nows[n], step, |before|);
    assert all == before + all[|before|..];
  }

  // ---- The bargain with the ingest core ------------------------------------------------------

  lemma {:induction false} AllPassAreKept(obs: seq<Observation>, cursor: Time, now: Time, skew: int)
    requires forall i :: 0 <= i < |obs| ==> V.Passes(obs[i], cursor, now, skew)
    ensures V.Kept(obs, cursor, now, skew) == obs
  {
    if obs != [] {
      AllPassAreKept(obs[..|obs| - 1], cursor, now, skew);
    }
  }

  /** The validator keeps every reading the adapter generates. */
  lemma ValidatorKeepsAll(thing: string, phase: int, since: Time, now: Time, step: int, limit: int, later: Time, skew: int)
    requires step > 0 && skew >= 0 && now <= later
    ensures var out := Readings(thing, phase, Cut(Ticks(since, now, step), limit));
            V.Kept(out, since, later, skew) == out
  {
    var all := Ticks(since, now, step);
    var out := Readings(thing, phase, Cut(all, limit));
    BoundariesAscend(NextTick(since, step), now, step);
    forall i | 0 <= i < |out| ensures V.Passes(out[i], since, later, skew) {
      assert out[i] == ReadingAt(thing, phase, all[i]);
    }
    AllPassAreKept(out, since, later, skew);
  }

  /** What the vendor has at instant `now`: every multiple of the cadence so far. */
  ghost function SourceAt(now: Time, step: int): G.Source
    requires step > 0
  {
    iset s: StreamId, t: Time | t % step == 0 && t <= now :: (s, t)
  }

  /** A fetch, cut or not, leaves out no tick up to its newest. */
  lemma FetchIsAPrefix(s: StreamId, thing: string, phase: int, since: Time, now: Time, step: int, limit: int)
    requires step > 0 && since <= now
    ensures var out := Readings(thing, phase, Cut(Ticks(since, now, step), limit));
            && G.PrefixFetch(SourceAt(now, step), s, since, out)
            && since <= MaxTime(out, since) <= now
  {
    var all := Ticks(since, now, step);
    var cut := Cut(all, limit);
    var out := Readings(thing, phase, cut);
    BoundariesAscend(NextTick(since, step), now, step);
    G.MaxTimeIsMax(out, since);
    forall t | t % step == 0 && since < t <= MaxTime(out, since) ensures HasTime(out, t) {
      TickMembership(since, now, step, t);
      var m :| 0 <= m < |out| && out[m].phenomenonTime == MaxTime(out, since);
      var i :| 0 <= i < |all| && all[i] == t;
      assert i <= m;
      assert out[i].phenomenonTime == t;
    }
  }

  // ---- Every run over the dummy adapter ---------------------------------------------------------

  /** The rows a fetch since `since` can return when the clock stands at `now`. */
  ghost predicate IsDummyFetch(rows: seq<Observation>, since: Time, now: Time, step: int, limit: int)
    requires step > 0
  {
    exists thing: string, phase: int :: rows == Readings(thing, phase, Cut(Ticks(since, now, step), limit))
  }

  /** The clock does not run backwards, and fetches are answered by the dummy adapter. */
  ghost predicate DummyStep(cfg: Config, w: World, e: Event, step: int, limit: int)
    requires step > 0
  {
    && (e.Tick? ==> e.now >= w.clock)
    && (e.Effect? && e.a.CursorRead? ==> w.clock - cfg.lookback >= 0)
    && (e.Effect? && e.a.Fetched? && PhaseOf(w, e.s).Fetching? ==>
          IsDummyFetch(e.a.rows, PhaseOf(w, e.s).since, w.clock, step, limit))
  }

  ghost predicate DummyRun(cfg: Config, w: World, es: seq<Event>, step: int, limit: int)
    requires step > 0
  {
    forall i :: 0 <= i < |es| ==> DummyStep(cfg, Run(cfg, w, es[..i]), es[i], step, limit)
  }

  lemma DummyFetchIsBelowClock(rows: seq<Observation>, since: Time, now: Time, step: int, limit: int)
    requires step > 0 && IsDummyFetch(rows, since, now, step, limit)
    ensures forall o :: o in rows ==> o.phenomenonTime <= now
  {
    BoundariesAscend(NextTick(since, step), now, step);
  }

  lemma DummyStepIsNoForecast(cfg: Config, w: World, e: Event, step: int, limit: int)
    requires step > 0 && DummyStep(cfg, w, e, step, limit)
    ensures G.NoForecast(w, e)
  {
    if e.Effect? && e.a.Fetched? && PhaseOf(w, e.s).Fetching? {
      DummyFetchIsBelowClock(e.a.rows, PhaseOf(w, e.s).since, w.clock, step, limit);
    }
  }

  lemma {:induction false} RunKeepsClockInv(cfg: Config, w: World, es: seq<Event>, step: int, limit: int)
    requires step > 0 && cfg.lookback >= 0
    requires G.ClockInv(w) && DummyRun(cfg, w, es, step, limit)
    ensures G.ClockInv(Run(cfg, w, es))
  {
    forall i | 0 <= i < |es| ensures G.NoForecast(Run(cfg, w, es[..i]), es[i]) {
      DummyStepIsNoForecast(cfg, Run(cfg, w, es[..i]), es[i], step, limit);
    }
    G.RunKeepsClockInv(cfg, w, es);
  }

  lemma EffectKeepsClock(cfg: Config, w: World, s: StreamId, a: Answer)
    ensures EffectStep(cfg, w, s, a).clock == w.clock
  {
  }

  /** What the vendor had before each event, and after the last. */
  ghost function Sources(cfg: Config, w: World, es: seq<Event>, step: int): (src: seq<G.Source>)
    requires step > 0
    ensures |src| == |es| + 1
    ensures forall i :: 0 <= i <= |es| ==> src[i] == SourceAt(Run(cfg, w, es[..i]).clock, step)
  {
    seq(|es| + 1, i requires 0 <= i <= |es| => SourceAt(Run(cfg, w, es[..i]).clock, step))
  }

  /** What the vendor gains when the clock moves on is newer than every cursor and batch. */
  lemma NewTicksAreBeyond(w: World, now: Time)
    requires G.ClockInv(w)
    ensures forall s, t :: t > w.clock ==> G.Beyond(w.(clock := now), s, t) && G.BehindBatch(w.(clock := now), s, t)
  {
    forall s, t | t > w.clock ensures G.Beyond(w.(clock := now), s, t) && G.BehindBatch(w.(clock := now), s, t) {
      assert G.BelowClock(w, s);
      var ph := PhaseOf(w, s);
      if HasCycle(ph) && ph.cy.mode.Poll? {
        G.MaxTimeIsMax(ph.cy.batch, ph.cy.since);
        if HasTime(ph.cy.batch, MaxTime(ph.cy.batch, ph.cy.since)) {
          var i :| 0 <= i < |ph.cy.batch| && ph.cy.batch[i].phenomenonTime == MaxTime(ph.cy.batch, ph.cy.since);
          assert ph.cy.batch[i] in ph.cy.batch;
        }
      }
    }
  }

  lemma DummyStepIsSteady(cfg: Config, w: World, e: Event, step: int, limit: int)
    requires step > 0
    requires G.ClockInv(w) && DummyStep(cfg, w, e, step, limit)
    ensures G.SteadyStep(cfg, w, e, SourceAt(w.clock, step), SourceAt(Step(cfg, w, e).clock, step))
  {
    if e.Effect? {
      EffectKeepsClock(cfg, w, e.s, e.a);
      if e.a.Fetched? && PhaseOf(w, e.s).Fetching? {
        var since := PhaseOf(w, e.s).since;
        assert G.BelowClock(w, e.s);
        var thing, phase :| e.a.rows == Readings(thing, phase, Cut(Ticks(since, w.clock, step), limit));
        FetchIsAPrefix(e.s, thing, phase, since, w.clock, step, limit);
      }
    } else if e.Tick? {
      NewTicksAreBeyond(w, e.now);
    }
  }

  /** The dummy adapter keeps its side of the bargain in every run. */
  lemma DummyRunIsOrdered(cfg: Config, w: World, es: seq<Event>, step: int, limit: int)
    requires step > 0 && cfg.lookback >= 0
    requires Fresh(w) && DummyRun(cfg, w, es, step, limit)
    ensures G.SteadyRun(cfg, w, es, Sources(cfg, w, es, step)) && G.OrderedRun(cfg, w, es, Sources(cfg, w, es, step))
  {
    var src := Sources(cfg, w, es, step);
    FreshIsBelowClock(w);
    forall i | 0 <= i < |es| ensures G.SteadyStep(cfg, Run(cfg, w, es[..i]), es[i], src[i], src[i + 1]) {
      assert forall j :: 0 <= j <= i ==> es[..i][..j] == es[..j];
      assert forall j :: 0 <= j < i ==> es[..i][j] == es[j];
      RunKeepsClockInv(cfg, w, es[..i], step, limit);
      DummyStepIsSteady(cfg, Run(cfg, w, es[..i]), es[i], step, limit);
      assert es[..i + 1][..i] == es[..i];
    }
    G.SteadyRunIsOrdered(cfg, w, es, src);
  }

  lemma FreshIsBelowClock(w: World)
    requires Fresh(w)
    ensures G.ClockInv(w)
  {
  }

  /** End to end: whatever fails, crashes or is purged, every cadence boundary between the
      stream's seed and its cursor was written, rejected or refused for good. */
  lemma NoTickIsLost(cfg: Config, w: World, es: seq<Event>, step: int, limit: int, s: StreamId, t: Time)
    requires step > 0 && cfg.lookback >= 0
    requires Fresh(w) && DummyRun(cfg, w, es, step, limit)
    requires CursorOf(Run(cfg, w, es), s).Some? && t % step == 0
    ensures var end := Run(cfg, w, es);
            && s in end.hist.base
            && CursorOf(end, s).value <= end.clock
            && (end.hist.base[s] < t <= CursorOf(end, s).value ==> Handled(end, s, t))
  {
    DummyRunIsOrdered(cfg, w, es, step, limit);
    G.NoGap(cfg, w, es, Sources(cfg, w, es, step), s);
    FreshIsBelowClock(w);
    RunKeepsClockInv(cfg, w, es, step, limit);
    assert es[..|es|] == es;
    assert G.BelowClock(Run(cfg, w, es), s);
  }
}
