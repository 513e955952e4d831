/** What recording a poll is for (runDatastreamCycle, internal/scheduler/scheduler.go, and
    GetStalenessSnapshot, internal/state/pgstore.go): a stream whose cycles run but bring
    nothing is counted, and found stale. */
module PollRecord {
  import opened Canonical
  import opened Store
  import opened WritePath

  /** The event records a poll of `s`. */
  predicate Records(w: World, e: Event, s: StreamId) {
    e == Effect(s, PolledDone) && PhaseOf(w, s).Idle?
  }

  lemma DeedOnRow(cfg: Config, w: World, o: StreamId, d: Deed, s: StreamId)
    requires s in w.db.rows
    ensures var w' := Perform(cfg, w, o, d);
            && s in w'.db.rows
            && w'.db.rows[s].lastPolledAt == (if d.MarkPolled? && o == s then Some(w.clock) else w.db.rows[s].lastPolledAt)
            && (w'.db.rows[s].lastWrittenAt == w.db.rows[s].lastWrittenAt
                || exists k :: k in w'.hist.logged && k.stream == s)
            && w.hist.logged.Keys <= w'.hist.logged.Keys
  {
    if d.Insert? && o == s && Perform(cfg, w, o, d) != w {
      assert LogKey(s, HeadTime(d.cy)) in Perform(cfg, w, o, d).hist.logged;
    }
  }

  lemma MarkIsRecord(cfg: Config, w: World, s: StreamId, a: Answer)
    ensures MoveOf(cfg, w, s, a).does.MarkPolled? <==> Records(w, Effect(s, a), s)
  {
  }

  lemma StepOnRow(cfg: Config, w: World, e: Event, s: StreamId)
    requires s in w.db.rows
    ensures var w' := Step(cfg, w, e);
            && s in w'.db.rows
            && w'.db.rows[s].lastPolledAt == (if Records(w, e, s) then Some(w.clock) else w.db.rows[s].lastPolledAt)
            && (w'.db.rows[s].lastWrittenAt == w.db.rows[s].lastWrittenAt
                || exists k :: k in w'.hist.logged && k.stream == s)
            && w.hist.logged.Keys <= w'.hist.logged.Keys
  {
    if e.Effect? {
      MarkIsRecord(cfg, w, e.s, e.a);
      DeedOnRow(cfg, w, e.s, MoveOf(cfg, w, e.s, e.a).does, s);
    }
  }

  /** The instant of the last recorded poll of a run. */
  function LastRecorded(cfg: Config, w: World, es: seq<Event>, s: StreamId): Option<Time> {
    if es == [] then (if s in w.db.rows then w.db.rows[s].lastPolledAt else None)
    else
      var cur := Run(cfg, w, es[..|es| - 1]);
      if Records(cur, es[|es| - 1], s) then Some(cur.clock) else LastRecorded(cfg, w, es[..|es| - 1], s)
  }

  /** last_polled_at is the instant of the last recorded poll, and last_written_at moves only
      when something is logged. */
  lemma {:induction false} RowTellsPolls(cfg: Config, w: World, es: seq<Event>, s: StreamId)
    requires s in w.db.rows
    ensures var end := Run(cfg, w, es);
            && s in end.db.rows
            && end.db.rows[s].lastPolledAt == LastRecorded(cfg, w, es, s)
            && (end.db.rows[s].lastWrittenAt == w.db.rows[s].lastWrittenAt
                || exists k :: k in end.hist.logged && k.stream == s)
  {
    if es != [] {
      var n := |es| - 1;
      RowTellsPolls(cfg, w, es[..n], s);
      StepOnRow(cfg, Run(cfg, w, es[..n]), es[n], s);
    }
  }

  lemma {:induction false} RecordedIsSome(cfg: Config, w: World, es: seq<Event>, s: StreamId, n: nat)
    requires n < |es| && Records(Run(cfg, w, es[..n]), es[n], s)
    ensures LastRecorded(cfg, w, es, s).Some?
  {
    var m := |es| - 1;
    if n < m {
      assert es[..m][..n] == es[..n];
      RecordedIsSome(cfg, w, es[..m], s, n);
    }
  }

  /** Once a cycle's poll was recorded, its stream is counted; and if nothing of it was ever
      written, the snapshot calls it stale at every instant. */
  lemma SilentStreamIsStale(cfg: Config, w: World, es: seq<Event>, s: StreamId, n: nat, now: Time)
    requires s in w.db.rows && n < |es| && Records(Run(cfg, w, es[..n]), es[n], s)
    ensures s in Polled(Run(cfg, w, es).db)
    ensures w.db.rows[s].lastWrittenAt.None? && (forall k :: k in Run(cfg, w, es).hist.logged ==> k.stream != s) ==>
              s in StaleStreams(Run(cfg, w, es).db, now)
  {
    RowTellsPolls(cfg, w, es, s);
    RecordedIsSome(cfg, w, es, s, n);
  }
}
