/** At most one copy: over every run, no FROST server ever holds two observations of one
    (Datastream, phenomenonTime). */
module AtMostOnce {
  import opened Canonical
  import opened Store
  import opened WritePath

  ghost predicate Once(w: World) {
    forall l, k :: Copies(w, l, k) <= 1
  }

  /** The phases that carry resolved ids. */
  predicate Resolved(ph: Phase) {
    ph.Checking? || ph.Probing? || ph.Posting? || ph.Recording?
  }

  /** What Clear asks of a phase before looking at the servers. */
  predicate Shaped(cfg: Config, s: StreamId, ph: Phase) {
    && (Resolved(ph) ==> OwnIds(cfg, s, ph.cy.ids))
    && (Resolved(ph) || ph.Resolving? ==> ph.cy.todo != [])
    && (ph.Probing? || ph.Posting? ==> |ph.replies| < |cfg.labels|)
  }

  /** Ids belong to the stream; a POST is only ever due where the server holds no copy. */
  predicate Clear(cfg: Config, w: World, s: StreamId) {
    var ph := PhaseOf(w, s);
    && Shaped(cfg, s, ph)
    && (ph.Posting? ==> Copies(w, LabelAt(cfg, |ph.replies|), KeyAt(ph.cy, |ph.replies|)) == 0)
  }

  ghost predicate Inv(cfg: Config, w: World) {
    && Once(w)
    && (forall s :: Clear(cfg, w, s))
  }

  /** A create raises exactly one count, by one. */
  lemma CreateCounts(w: World, l: Label, k: ObsKey)
    ensures forall l', k' ::
              Copies(Create(w, l, k), l', k') == Copies(w, l', k') + if l' == l && k' == k then 1 else 0
  {
  }

  lemma SameHeld(w: World, w': World)
    requires w'.held == w.held
    ensures forall l, k :: Copies(w', l, k) == Copies(w, l, k)
  {
  }

  /** The only deed that changes a server is a create. */
  lemma DeedOnServers(cfg: Config, w: World, s: StreamId, d: Deed)
    ensures Perform(cfg, w, s, d).held == if d.Make? then Create(w, d.l, d.k).held else w.held
  {
  }

  /** A create is only ever done by a due POST, on its own target. */
  lemma MakeIsPost(cfg: Config, w: World, s: StreamId, a: Answer)
    ensures var d := MoveOf(cfg, w, s, a).does;
            var ph := PhaseOf(w, s);
            d.Make? ==>
              && ph.Posting?
              && d.l == LabelAt(cfg, |ph.replies|) && d.k == KeyAt(ph.cy, |ph.replies|)
  {
  }

  /** An effect of `s` moves no other stream's cycle. */
  lemma EffectOnPhases(cfg: Config, w: World, s: StreamId, a: Answer)
    ensures forall o :: o != s ==> PhaseOf(EffectStep(cfg, w, s, a), o) == PhaseOf(w, o)
    ensures PhaseOf(EffectStep(cfg, w, s, a), s) == MoveOf(cfg, w, s, a).next
  {
  }

  /** Any count an effect of `s` changes belongs to `s`, counts never fall, and none
      reaches two. */
  lemma EffectFrame(cfg: Config, w: World, s: StreamId, a: Answer)
    requires Clear(cfg, w, s)
    ensures var w' := EffectStep(cfg, w, s, a);
            && (forall l, k :: Copies(w', l, k) >= Copies(w, l, k))
            && (Once(w) ==> Once(w'))
            && (forall l, k :: Copies(w', l, k) != Copies(w, l, k) ==>
                  (l, k.datastream) in cfg.owner && cfg.owner[(l, k.datastream)] == s)
  {
    var w' := EffectStep(cfg, w, s, a);
    var d := MoveOf(cfg, w, s, a).does;
    DeedOnServers(cfg, w, s, d);
    MakeIsPost(cfg, w, s, a);
    if d.Make? {
      CreateCounts(w, d.l, d.k);
      SameHeld(Create(w, d.l, d.k), w');
    } else {
      SameHeld(w, w');
    }
  }

  lemma CoveredIsShaped(cfg: Config, s: StreamId, cy: Cycle)
    requires OwnIds(cfg, s, cy.ids)
    ensures Shaped(cfg, s, Covered(cy)) && !Covered(cy).Posting?
  {
  }

  lemma ReplyIsShaped(cfg: Config, s: StreamId, cy: Cycle, replies: seq<Reply>)
    requires OwnIds(cfg, s, cy.ids) && cy.todo != []
    ensures Shaped(cfg, s, AfterReply(cfg, cy, replies)) && !AfterReply(cfg, cy, replies).Posting?
  {
    CoveredIsShaped(cfg, s, cy);
  }

  lemma WritingIsShaped(cfg: Config, w: World, s: StreamId, a: Answer)
    requires Shaped(cfg, s, PhaseOf(w, s)) && (PhaseOf(w, s).Probing? || PhaseOf(w, s).Posting?)
    ensures Shaped(cfg, s, MoveOf(cfg, w, s, a).next)
  {
    var cy, replies := PhaseOf(w, s).cy, PhaseOf(w, s).replies;
    if PhaseOf(w, s).Probing? {
      ReplyIsShaped(cfg, s, cy, replies + [if a.ProbeAnswered? then Present else Refused]);
    } else {
      ReplyIsShaped(cfg, s, cy, replies + [PostReply(a)]);
    }
  }

  lemma NextIsShaped(cfg: Config, w: World, s: StreamId, a: Answer)
    requires Shaped(cfg, s, PhaseOf(w, s))
    requires OwnResolve(cfg, Effect(s, a))
    ensures Shaped(cfg, s, MoveOf(cfg, w, s, a).next)
  {
    match PhaseOf(w, s)
    case Checking(cy) =>
      CoveredIsShaped(cfg, s, cy);
      ReplyIsShaped(cfg, s, cy, []);
    case Probing(_, _) => WritingIsShaped(cfg, w, s, a);
    case Posting(_, _) => WritingIsShaped(cfg, w, s, a);
    case Recording(cy, _) => CoveredIsShaped(cfg, s, cy);
    case _ =>
  }

  function PostReply(a: Answer): Reply {
    match a
    case PostCreated(id) => Created(id)
    case PostConflict => Conflict
    case _ => Refused
  }

  /** A POST becomes due only by a probe that found no copy, and nothing is done then. */
  lemma PostFollowsProbe(cfg: Config, w: World, s: StreamId, a: Answer)
    ensures var ph := MoveOf(cfg, w, s, a).next;
            ph.Posting? ==>
              && MoveOf(cfg, w, s, a).does == Nothing
              && (|| ph == PhaseOf(w, s)
                  || Copies(w, LabelAt(cfg, |ph.replies|), KeyAt(ph.cy, |ph.replies|)) == 0)
  {
  }

  /** The stream's own part of the invariant survives its own effect. */
  lemma EffectKeepsOwnClear(cfg: Config, w: World, s: StreamId, a: Answer)
    requires Clear(cfg, w, s)
    requires OwnResolve(cfg, Effect(s, a))
    ensures Clear(cfg, EffectStep(cfg, w, s, a), s)
  {
    NextIsShaped(cfg, w, s, a);
    PostFollowsProbe(cfg, w, s, a);
    EffectOnPhases(cfg, w, s, a);
  }

  lemma StepKeepsInv(cfg: Config, w: World, e: Event)
    requires Inv(cfg, w) && OwnResolve(cfg, e)
    ensures Inv(cfg, Step(cfg, w, e))
  {
    match e
    case Effect(s, a) =>
      var w' := EffectStep(cfg, w, s, a);
      assert Clear(cfg, w, s);
      EffectKeepsOwnClear(cfg, w, s, a);
      EffectFrame(cfg, w, s, a);
      EffectOnPhases(cfg, w, s, a);
      forall o ensures Clear(cfg, w', o) {
        if o != s {
          assert Clear(cfg, w, o);
          assert PhaseOf(w', o) == PhaseOf(w, o);
        }
      }
    case _ =>
      var w' := Step(cfg, w, e);
      forall l, k ensures Copies(w', l, k) == Copies(w, l, k) {}
      forall o ensures Clear(cfg, w', o) {
        assert Clear(cfg, w, o);
      }
  }

  lemma {:induction false} RunKeepsInv(cfg: Config, w: World, es: seq<Event>)
    requires Inv(cfg, w) && OwnResolves(cfg, es)
    ensures Inv(cfg, Run(cfg, w, es))
  {
    if es != [] {
      var n := |es| - 1;
      assert forall i :: 0 <= i < n ==> es[..n][i] == es[i];
      RunKeepsInv(cfg, w, es[..n]);
      StepKeepsInv(cfg, Run(cfg, w, es[..n]), es[n]);
    }
  }

  /** A world no cycle has started in yet. */
  ghost predicate Fresh(w: World) {
    && w.phases == map[]
    && w.db.log == map[]
    && (forall s :: s in w.db.rows ==> w.db.rows[s].pollCursor.None?)
    && w.hist == History({}, {}, map[], map[])
  }

  /** At most once, over whole runs: whatever mix of fetch errors, refusals, transient
      failures with or without the create having landed, lost commits, crashes and purges
      the streams go through, interleaved in any way, no server ever holds a second copy. */
  lemma NoSecondCopy(cfg: Config, w: World, es: seq<Event>, l: Label, k: ObsKey)
    requires Fresh(w) && Once(w) && OwnResolves(cfg, es)
    ensures Copies(Run(cfg, w, es), l, k) <= 1
  {
    forall s ensures Clear(cfg, w, s) {}
    RunKeepsInv(cfg, w, es);
  }

  /** Nothing a run does removes an observation from a server. */
  lemma {:induction false} CopiesNeverFall(cfg: Config, w: World, es: seq<Event>, l: Label, k: ObsKey)
    requires Inv(cfg, w) && OwnResolves(cfg, es)
    ensures Copies(Run(cfg, w, es), l, k) >= Copies(w, l, k)
  {
    if es != [] {
      var n := |es| - 1;
      assert forall i :: 0 <= i < n ==> es[..n][i] == es[i];
      RunKeepsInv(cfg, w, es[..n]);
      CopiesNeverFall(cfg, w, es[..n], l, k);
      var mid := Run(cfg, w, es[..n]);
      if es[n].Effect? {
        assert Clear(cfg, mid, es[n].s);
        EffectFrame(cfg, mid, es[n].s, es[n].a);
      }
    }
  }
}
