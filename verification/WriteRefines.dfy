/** What Replay reasons about is what the protocol does: a cycle of WritePath whose calls are
    all answered takes the servers and the log exactly where Replay.Process says, and one
    that breaks off leaves them where Replay.Break says. */
module WriteRefines {
  import opened Canonical
  import opened Store
  import opened WritePath
  import opened AtMostOnce
  import R = Replay

  function KeyOf(s: StreamId, cy: Cycle): LogKey {
    LogKey(s, HeadTime(cy))
  }

  predicate DistinctLabels(cfg: Config) {
    forall i, j :: 0 <= i < j < |cfg.labels| ==> cfg.labels[i] != cfg.labels[j]
  }

  /** Replay's state is what the servers and the log show of the observation being written. */
  ghost predicate Mirrors(cfg: Config, setup: R.Setup, w: World, st: R.State, s: StreamId, cy: Cycle) {
    && setup.targets == |cfg.labels|
    && (KeyOf(s, cy) in w.db.log <==> KeyOf(s, cy) in st.log)
    && (forall i: nat :: i < |cfg.labels| ==>
          ((i, KeyOf(s, cy)) in st.held <==> Copies(w, LabelAt(cfg, i), KeyAt(cy, i)) > 0))
  }

  /** The calls of target `i` and their answers. */
  function CallsOf(s: StreamId, reply: Reply): seq<Event> {
    match reply
    case Refused => [Effect(s, ProbeRefused)]
    case Created(id) => [Effect(s, ProbeAnswered), Effect(s, PostCreated(id))]
    case _ => [Effect(s, ProbeAnswered)]
  }

  function Calls(s: StreamId, replies: seq<Reply>): seq<Event> {
    if replies == [] then [] else Calls(s, replies[..|replies| - 1]) + CallsOf(s, replies[|replies| - 1])
  }

  lemma RunOne(cfg: Config, w: World, e: Event)
    ensures Run(cfg, w, [e]) == Step(cfg, w, e)
  {
    assert [e][..0] == [];
  }

  lemma RunTwo(cfg: Config, w: World, e: Event, f: Event)
    ensures Run(cfg, w, [e, f]) == Step(cfg, Step(cfg, w, e), f)
  {
    assert [e, f][..1] == [e];
    RunOne(cfg, w, e);
  }

  /** How one target's copies change. */
  function Gains(reply: Reply): nat {
    if reply.Created? then 1 else 0
  }

  /** `reply` is what the calls of a target holding `copies` can bring. */
  predicate Fits(reply: Reply, copies: nat) {
    match reply
    case Refused => true
    case Present => copies > 0
    case Created(_) => copies == 0
    case Conflict => false
  }

  lemma OneTarget(cfg: Config, w: World, s: StreamId, cy: Cycle, replies: seq<Reply>, reply: Reply)
    requires PhaseOf(w, s) == Probing(cy, replies)
    requires Fits(reply, Copies(w, LabelAt(cfg, |replies|), KeyAt(cy, |replies|)))
    ensures var w' := Run(cfg, w, CallsOf(s, reply));
            && PhaseOf(w', s) == AfterReply(cfg, cy, replies + [reply])
            && w'.db == w.db && w'.clock == w.clock
            && (forall l: Label, k: ObsKey :: Copies(w', l, k) == Copies(w, l, k) +
                  if l == LabelAt(cfg, |replies|) && k == KeyAt(cy, |replies|) then Gains(reply) else 0)
  {
    match reply {
      case Created(id) => CreatingTarget(cfg, w, s, cy, replies, id);
      case Refused => RunOne(cfg, w, Effect(s, ProbeRefused)); SettledTarget(cfg, w, s, cy, replies, ProbeRefused);
      case Present => RunOne(cfg, w, Effect(s, ProbeAnswered)); SettledTarget(cfg, w, s, cy, replies, ProbeAnswered);
    }
  }

  lemma SettledTarget(cfg: Config, w: World, s: StreamId, cy: Cycle, replies: seq<Reply>, a: Answer)
    requires PhaseOf(w, s) == Probing(cy, replies)
    requires a.ProbeRefused? || (a.ProbeAnswered? && Copies(w, LabelAt(cfg, |replies|), KeyAt(cy, |replies|)) > 0)
    ensures var w' := EffectStep(cfg, w, s, a);
            && PhaseOf(w', s) == AfterReply(cfg, cy, replies + [if a.ProbeRefused? then Refused else Present])
            && w'.db == w.db && w'.clock == w.clock && w'.held == w.held
  {
  }

  lemma CreatingTarget(cfg: Config, w: World, s: StreamId, cy: Cycle, replies: seq<Reply>, id: int)
    requires PhaseOf(w, s) == Probing(cy, replies)
    requires Copies(w, LabelAt(cfg, |replies|), KeyAt(cy, |replies|)) == 0
    ensures var w' := Run(cfg, w, CallsOf(s, Created(id)));
            && PhaseOf(w', s) == AfterReply(cfg, cy, replies + [Created(id)])
            && w'.db == w.db && w'.clock == w.clock
            && (forall l: Label, k: ObsKey :: Copies(w', l, k) == Copies(w, l, k) +
                  if l == LabelAt(cfg, |replies|) && k == KeyAt(cy, |replies|) then 1 else 0)
  {
    RunTwo(cfg, w, Effect(s, ProbeAnswered), Effect(s, PostCreated(id)));
    var mid := EffectStep(cfg, w, s, ProbeAnswered);
    var l, k := LabelAt(cfg, |replies|), KeyAt(cy, |replies|);
    assert PhaseOf(mid, s) == Posting(cy, replies) && mid.held == w.held;
    assert MoveOf(cfg, mid, s, PostCreated(id)) == Move(AfterReply(cfg, cy, replies + [Created(id)]), Make(l, k));
    SameHeld(w, mid);
    CreateCounts(mid, l, k);
    SameHeld(Create(mid, l, k), EffectStep(cfg, mid, s, PostCreated(id)));
  }

  /** From `w`, the first |replies| targets have been called and answered so. */
  ghost predicate Called(cfg: Config, w: World, w': World, s: StreamId, cy: Cycle, replies: seq<Reply>) {
    && PhaseOf(w', s) == AfterReply(cfg, cy, replies)
    && w'.db == w.db && w'.clock == w.clock
    && (forall i: nat :: i < |cfg.labels| ==>
          Copies(w', LabelAt(cfg, i), KeyAt(cy, i)) ==
          Copies(w, LabelAt(cfg, i), KeyAt(cy, i)) + if i < |replies| then Gains(replies[i]) else 0)
    && SameElsewhere(w, w', HeadTime(cy))
  }

  /** No server holds more or less of any other instant. */
  ghost predicate SameElsewhere(w: World, w': World, t: Time) {
    forall l: Label, k: ObsKey :: k.time != t ==> Copies(w', l, k) == Copies(w, l, k)
  }

  lemma NextTarget(cfg: Config, w: World, mid: World, s: StreamId, cy: Cycle, replies: seq<Reply>, reply: Reply)
    requires DistinctLabels(cfg) && |replies| < |cfg.labels|
    requires Called(cfg, w, mid, s, cy, replies)
    requires Fits(reply, Copies(w, LabelAt(cfg, |replies|), KeyAt(cy, |replies|)))
    ensures Called(cfg, w, Run(cfg, mid, CallsOf(s, reply)), s, cy, replies + [reply])
  {
    OneTarget(cfg, mid, s, cy, replies, reply);
    LabelsApart(cfg, |replies|);
  }

  lemma {:induction false} FirstTargets(
    cfg: Config, setup: R.Setup, w: World, st: R.State, s: StreamId, cy: Cycle, n: nat)
    requires Mirrors(cfg, setup, w, st, s, cy) && DistinctLabels(cfg) && n <= |cfg.labels|
    requires PhaseOf(w, s) == AfterReply(cfg, cy, [])
    ensures var replies := R.Answers(setup, st, KeyOf(s, cy))[..n];
            Called(cfg, w, Run(cfg, w, Calls(s, replies)), s, cy, replies)
  {
    var all := R.Answers(setup, st, KeyOf(s, cy));
    if n == 0 {
      assert all[..0] == [];
    } else {
      var before, reply := all[..n - 1], all[n - 1];
      FirstTargets(cfg, setup, w, st, s, cy, n - 1);
      assert all[..n] == before + [reply] && all[..n][..n - 1] == before;
      assert reply == R.Answer(setup, st, KeyOf(s, cy), n - 1);
      NextTarget(cfg, w, Run(cfg, w, Calls(s, before)), s, cy, before, reply);
      RunAppend(cfg, w, Calls(s, before), CallsOf(s, reply));
    }
  }

  lemma LabelsApart(cfg: Config, n: nat)
    requires DistinctLabels(cfg) && n < |cfg.labels|
    ensures forall i: nat :: i < |cfg.labels| && i != n ==> LabelAt(cfg, i) != LabelAt(cfg, n)
  {
  }

  /** Replay's state is what servers and log show of the whole stream. */
  ghost predicate MirrorsAll(cfg: Config, setup: R.Setup, w: World, st: R.State, s: StreamId, ids: seq<StaId>) {
    && setup.targets == |cfg.labels|
    && (forall t: Time :: LogKey(s, t) in w.db.log <==> LogKey(s, t) in st.log)
    && (forall i: nat, t: Time :: i < |cfg.labels| ==>
          ((i, LogKey(s, t)) in st.held <==> Copies(w, LabelAt(cfg, i), ObsKey(IdAt(ids, i), t)) > 0))
  }

  lemma MirrorsHead(cfg: Config, setup: R.Setup, w: World, st: R.State, s: StreamId, cy: Cycle)
    requires MirrorsAll(cfg, setup, w, st, s, cy.ids)
    ensures Mirrors(cfg, setup, w, st, s, cy)
  {
  }

  /** A step that is mirrored at one instant and touches no other is mirrored throughout. */
  lemma MirrorsElsewhere(
    cfg: Config, setup: R.Setup, w: World, w': World, st: R.State, st': R.State, s: StreamId, cy: Cycle)
    requires MirrorsAll(cfg, setup, w, st, s, cy.ids) && Mirrors(cfg, setup, w', st', s, cy)
    requires SameElsewhere(w, w', HeadTime(cy))
    requires forall k :: k != KeyOf(s, cy) ==> (k in w'.db.log <==> k in w.db.log)
    requires forall k :: k != KeyOf(s, cy) ==> (k in st'.log <==> k in st.log)
    requires forall i: nat, k :: k != KeyOf(s, cy) ==> ((i, k) in st'.held <==> (i, k) in st.held)
    ensures MirrorsAll(cfg, setup, w', st', s, cy.ids)
  {
    forall i: nat, t: Time | i < |cfg.labels|
      ensures (i, LogKey(s, t)) in st'.held <==> Copies(w', LabelAt(cfg, i), ObsKey(IdAt(cy.ids, i), t)) > 0
    {
      if t == HeadTime(cy) {
        assert KeyAt(cy, i) == ObsKey(IdAt(cy.ids, i), t);
      }
    }
  }

  /** The log is read and finds nothing; the first `n` targets are called. */
  lemma ReadAndCall(cfg: Config, setup: R.Setup, w: World, st: R.State, s: StreamId, cy: Cycle, n: nat) returns (es: seq<Event>)
    requires Mirrors(cfg, setup, w, st, s, cy) && DistinctLabels(cfg) && n <= |cfg.labels|
    requires PhaseOf(w, s) == Checking(cy) && KeyOf(s, cy) !in st.log
    ensures Called(cfg, w, Run(cfg, w, es), s, cy, R.Answers(setup, st, KeyOf(s, cy))[..n])
  {
    var replies := R.Answers(setup, st, KeyOf(s, cy))[..n];
    var read := Step(cfg, w, Effect(s, LogRead));
    RunOne(cfg, w, Effect(s, LogRead));
    SameHeld(w, read);
    assert PhaseOf(read, s) == AfterReply(cfg, cy, []);
    FirstTargets(cfg, setup, read, st, s, cy, n);
    RunAppend(cfg, w, [Effect(s, LogRead)], Calls(s, replies));
    es := [Effect(s, LogRead)] + Calls(s, replies);
  }

  /** What the targets gained is what Replay.Served says. */
  lemma HeldMirrors(cfg: Config, setup: R.Setup, w: World, called: World, st: R.State, s: StreamId, cy: Cycle, n: nat)
    requires Mirrors(cfg, setup, w, st, s, cy) && n <= |cfg.labels| && KeyOf(s, cy) !in st.log
    requires Called(cfg, w, called, s, cy, R.Answers(setup, st, KeyOf(s, cy))[..n])
    ensures Mirrors(cfg, setup, called, R.Served(setup, st, KeyOf(s, cy), n), s, cy)
  {
    var k := KeyOf(s, cy);
    forall i: nat | i < |cfg.labels|
      ensures (i, k) in R.Served(setup, st, k, n).held <==>
              Copies(called, LabelAt(cfg, i), KeyAt(cy, i)) > 0
    {
      assert R.Answers(setup, st, k)[i] == R.Answer(setup, st, k, i);
      if i < n { assert R.Answers(setup, st, k)[..n][i] == R.Answers(setup, st, k)[i]; }
    }
  }

  /** The INSERT, whether its reply arrives or not. */
  lemma RecordMirrors(cfg: Config, w: World, s: StreamId, cy: Cycle, replies: seq<Reply>, a: Answer)
    requires PhaseOf(w, s) == Recording(cy, replies) && cy.todo != [] && s in w.db.rows
    requires KeyOf(s, cy) !in w.db.log && (a.RecordDone? || a.RecordFailed?)
    ensures var w', k := Step(cfg, w, Effect(s, a)), KeyOf(s, cy);
            && PhaseOf(w', s) == (if a.RecordDone? then Covered(cy) else Idle) && w'.held == w.held
            && (k in w'.db.log <==> a.RecordDone? || a.committed)
            && (k in w'.db.log ==> w'.db.log[k].result == cy.todo[0].result && w'.db.log[k].rawId == cy.todo[0].rawId)
            && (forall o :: o != k ==> (o in w'.db.log <==> o in w.db.log))
            && s in w'.db.rows
  {
  }

  /** The observation is covered, and servers and log are as Replay.Write leaves them; a row
      that was inserted carries the observation's own value. */
  lemma WriteIsReplayWrite(cfg: Config, setup: R.Setup, w: World, st: R.State, s: StreamId, cy: Cycle) returns (es: seq<Event>)
    requires MirrorsAll(cfg, setup, w, st, s, cy.ids) && DistinctLabels(cfg)
    requires PhaseOf(w, s) == Checking(cy) && cy.todo != [] && s in w.db.rows
    requires KeyOf(s, cy) !in st.log
    ensures var k, end := KeyOf(s, cy), Run(cfg, w, es);
            && PhaseOf(end, s) == Covered(cy) && s in end.db.rows
            && MirrorsAll(cfg, setup, end, R.Write(setup, st, R.Item(k, cy.todo[0])), s, cy.ids)
            && (k in end.db.log ==>
                  end.db.log[k].result == cy.todo[0].result && end.db.log[k].rawId == cy.todo[0].rawId)
  {
    var k := KeyOf(s, cy);
    var all := R.Answers(setup, st, k);
    MirrorsHead(cfg, setup, w, st, s, cy);
    es := ReadAndCall(cfg, setup, w, st, s, cy, |all|);
    assert all[..|all|] == all;
    var called := Run(cfg, w, es);
    HeldMirrors(cfg, setup, w, called, st, s, cy, |all|);
    var st' := R.Write(setup, st, R.Item(k, cy.todo[0]));
    if Dropped(all) {
      MirrorsElsewhere(cfg, setup, w, called, st, st', s, cy);
    } else {
      RunAppend(cfg, w, es, [Effect(s, RecordDone)]);
      RunOne(cfg, called, Effect(s, RecordDone));
      RecordMirrors(cfg, called, s, cy, all, RecordDone);
      var end := Step(cfg, called, Effect(s, RecordDone));
      SameHeld(called, end);
      MirrorsElsewhere(cfg, setup, w, end, st, st', s, cy);
      es := es + [Effect(s, RecordDone)];
    }
  }

  /** An observation that is already logged is skipped. */
  lemma SkipIsReplayWrite(cfg: Config, setup: R.Setup, w: World, st: R.State, s: StreamId, cy: Cycle)
    requires MirrorsAll(cfg, setup, w, st, s, cy.ids)
    requires PhaseOf(w, s) == Checking(cy) && cy.todo != [] && s in w.db.rows && KeyOf(s, cy) in st.log
    ensures var end := Run(cfg, w, [Effect(s, LogRead)]);
            && PhaseOf(end, s) == Covered(cy) && s in end.db.rows
            && MirrorsAll(cfg, setup, end, R.Write(setup, st, R.Item(KeyOf(s, cy), cy.todo[0])), s, cy.ids)
  {
    RunOne(cfg, w, Effect(s, LogRead));
    SameHeld(w, Step(cfg, w, Effect(s, LogRead)));
  }

  /** A whole group whose calls are all answered is written exactly as Replay.Process says. */
  lemma {:induction false} GroupIsReplayProcess(cfg: Config, setup: R.Setup, w: World, st: R.State, s: StreamId, cy: Cycle)
    returns (es: seq<Event>, max: Time)
    requires MirrorsAll(cfg, setup, w, st, s, cy.ids) && DistinctLabels(cfg)
    requires PhaseOf(w, s) == Checking(cy) && cy.todo != [] && s in w.db.rows
    ensures PhaseOf(Run(cfg, w, es), s) == Finish(cy.(todo := [], max := max))
    ensures MirrorsAll(cfg, setup, Run(cfg, w, es), R.Process(setup, st, R.ItemsOf(s, cy.todo)), s, cy.ids)
    decreases |cy.todo|
  {
    var k, rest := KeyOf(s, cy), cy.todo[1..];
    var it := R.Item(k, cy.todo[0]);
    if k in st.log {
      es := [Effect(s, LogRead)];
      SkipIsReplayWrite(cfg, setup, w, st, s, cy);
    } else {
      es := WriteIsReplayWrite(cfg, setup, w, st, s, cy);
    }
    assert R.ItemsOf(s, cy.todo) == [it] + R.ItemsOf(s, rest);
    R.ProcessOneMore(setup, st, it, R.ItemsOf(s, rest));
    max := Max(cy.max, cy.todo[0].phenomenonTime);
    if rest != [] {
      var more;
      more, max := GroupIsReplayProcess(cfg, setup, Run(cfg, w, es), R.Write(setup, st, it), s, cy.(todo := rest, max := max));
      RunAppend(cfg, w, es, more);
      es := es + more;
    }
  }

  // ---- Writes that break off ---------------------------------------------------------------------

  /** The process dies: servers and tables stay, every cycle is gone. */
  lemma CrashMirrors(cfg: Config, setup: R.Setup, w: World, st: R.State, s: StreamId, cy: Cycle)
    requires Mirrors(cfg, setup, w, st, s, cy)
    ensures Mirrors(cfg, setup, Step(cfg, w, Crash), st, s, cy) && PhaseOf(Step(cfg, w, Crash), s) == Idle
  {
    SameHeld(w, Step(cfg, w, Crash));
  }

  /** A POST whose reply is lost, but which landed. */
  lemma LostPost(cfg: Config, w: World, s: StreamId, cy: Cycle, replies: seq<Reply>)
    requires PhaseOf(w, s) == Probing(cy, replies)
    requires Copies(w, LabelAt(cfg, |replies|), KeyAt(cy, |replies|)) == 0
    ensures var w' := Run(cfg, w, [Effect(s, ProbeAnswered), Effect(s, PostFailed(true))]);
            && PhaseOf(w', s) == Idle && w'.db == w.db
            && (forall l: Label, k: ObsKey :: Copies(w', l, k) == Copies(w, l, k) +
                  if l == LabelAt(cfg, |replies|) && k == KeyAt(cy, |replies|) then 1 else 0)
  {
    RunTwo(cfg, w, Effect(s, ProbeAnswered), Effect(s, PostFailed(true)));
    var mid := EffectStep(cfg, w, s, ProbeAnswered);
    var l, k := LabelAt(cfg, |replies|), KeyAt(cy, |replies|);
    assert PhaseOf(mid, s) == Posting(cy, replies) && mid.held == w.held;
    assert MoveOf(cfg, mid, s, PostFailed(true)) == Move(Idle, Make(l, k));
    SameHeld(w, mid);
    CreateCounts(mid, l, k);
    SameHeld(Create(mid, l, k), EffectStep(cfg, mid, s, PostFailed(true)));
  }

  /** Serving one more target adds just that target's copy. */
  lemma OneMoreServed(setup: R.Setup, st: R.State, k: LogKey, j: nat)
    requires j < setup.targets
    ensures forall i: nat :: (i, k) in R.Served(setup, st, k, j + 1).held <==>
              (i, k) in R.Served(setup, st, k, j).held || (i == j && !setup.refuses(j, k))
  {
  }

  /** Broken off at target `j`, whose create may have landed. */
  lemma BreakAtTarget(cfg: Config, setup: R.Setup, w: World, st: R.State, s: StreamId, cy: Cycle, j: nat, landed: bool)
    returns (es: seq<Event>)
    requires Mirrors(cfg, setup, w, st, s, cy) && DistinctLabels(cfg)
    requires PhaseOf(w, s) == Checking(cy) && KeyOf(s, cy) !in st.log && j < |cfg.labels|
    ensures PhaseOf(Run(cfg, w, es), s) == Idle
    ensures Mirrors(cfg, setup, Run(cfg, w, es), R.Served(setup, st, KeyOf(s, cy), if landed then j + 1 else j), s, cy)
  {
    var k := KeyOf(s, cy);
    es := ReadAndCall(cfg, setup, w, st, s, cy, j);
    var called := Run(cfg, w, es);
    HeldMirrors(cfg, setup, w, called, st, s, cy, j);
    OneMoreServed(setup, st, k, j);
    if landed && !setup.refuses(j, k) && (j, k) !in st.held {
      var replies := R.Answers(setup, st, k)[..j];
      assert Copies(called, LabelAt(cfg, j), KeyAt(cy, j)) == 0;
      LostPost(cfg, called, s, cy, replies);
      LabelsApart(cfg, j);
      RunAppend(cfg, w, es, [Effect(s, ProbeAnswered), Effect(s, PostFailed(true))]);
      es := es + [Effect(s, ProbeAnswered), Effect(s, PostFailed(true))];
    } else {
      RunAppend(cfg, w, es, [Crash]);
      RunOne(cfg, called, Crash);
      CrashMirrors(cfg, setup, called, R.Served(setup, st, k, if landed then j + 1 else j), s, cy);
      es := es + [Crash];
    }
  }

  /** Broken off at the INSERT, which may have committed, or after the last target. */
  lemma BreakAtRecord(cfg: Config, setup: R.Setup, w: World, st: R.State, s: StreamId, cy: Cycle, committed: bool)
    returns (es: seq<Event>)
    requires Mirrors(cfg, setup, w, st, s, cy) && DistinctLabels(cfg)
    requires PhaseOf(w, s) == Checking(cy) && cy.todo != [] && s in w.db.rows && KeyOf(s, cy) !in st.log
    ensures PhaseOf(Run(cfg, w, es), s) == Idle
    ensures Mirrors(cfg, setup, Run(cfg, w, es),
                    R.Break(setup, st, R.Item(KeyOf(s, cy), cy.todo[0]), R.AtRecord(committed)), s, cy)
  {
    var k := KeyOf(s, cy);
    var all := R.Answers(setup, st, k);
    es := ReadAndCall(cfg, setup, w, st, s, cy, |all|);
    assert all[..|all|] == all;
    var called := Run(cfg, w, es);
    HeldMirrors(cfg, setup, w, called, st, s, cy, |all|);
    var last := if Dropped(all) then Crash else Effect(s, RecordFailed(committed));
    RunAppend(cfg, w, es, [last]);
    RunOne(cfg, called, last);
    if Dropped(all) {
      CrashMirrors(cfg, setup, called, R.Served(setup, st, k, |all|), s, cy);
    } else {
      RecordMirrors(cfg, called, s, cy, all, RecordFailed(committed));
      SameHeld(called, Step(cfg, called, last));
    }
    es := es + [last];
  }

  /** Wherever Replay lets a request break off, the protocol can, with the same outcome. */
  lemma BreakIsReplayBreak(cfg: Config, setup: R.Setup, w: World, st: R.State, s: StreamId, cy: Cycle, f: R.Fault)
    returns (es: seq<Event>)
    requires Mirrors(cfg, setup, w, st, s, cy) && DistinctLabels(cfg)
    requires PhaseOf(w, s) == Checking(cy) && cy.todo != [] && s in w.db.rows
    ensures PhaseOf(Run(cfg, w, es), s) == Idle
    ensures Mirrors(cfg, setup, Run(cfg, w, es), R.Break(setup, st, R.Item(KeyOf(s, cy), cy.todo[0]), f), s, cy)
  {
    if KeyOf(s, cy) in st.log || f.AtCheck? {
      es := [Crash];
      RunOne(cfg, w, Crash);
      CrashMirrors(cfg, setup, w, st, s, cy);
    } else if f.AtTarget? && f.j < |cfg.labels| {
      es := BreakAtTarget(cfg, setup, w, st, s, cy, f.j, f.landed);
    } else {
      var committed := f.AtRecord? && f.committed;
      es := BreakAtRecord(cfg, setup, w, st, s, cy, committed);
      if f.AtTarget? {
        assert R.Served(setup, st, KeyOf(s, cy), f.j) == R.Served(setup, st, KeyOf(s, cy), setup.targets);
        assert R.Served(setup, st, KeyOf(s, cy), f.j + 1) == R.Served(setup, st, KeyOf(s, cy), setup.targets);
      }
    }
  }
}
