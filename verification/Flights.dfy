/** Who waits at the flight gate, and that waiting ends (GetOrCreate and its singleflight
    group, internal/frost/writer.go): every waiter has a leader of its own key, and once the
    leader's calls are answered it and all its waiters are done, whatever the others do. */
module Flights {
  import opened Canonical
  import opened Upsert

  // ---- The gate ---------------------------------------------------------------------------

  /** A caller at the gate leads if and only if its own key has no flight. */
  lemma EntersIff(w: World, t: Tid, r: Req)
    requires t in w.threads && w.threads[t] == Missed(r)
    ensures var w' := Step(w, Act(t, Entered));
            && w'.threads == w.threads[t := if r in w.flights then Waiting(r) else Rechecking(r)]
            && w'.flights == if r in w.flights then w.flights else w.flights[r := t]
  {
  }

  /** In every reachable state whoever waits has a leader of its own key to wait for. */
  lemma WaiterHasALeader(w: World, es: seq<Event>, o: Tid)
    requires Fresh(w)
    requires o in Run(w, es).threads && Run(w, es).threads[o].Waiting?
    ensures var end := Run(w, es);
            var r := end.threads[o].req;
            && r in end.flights && end.flights[r] in end.threads
            && Leads(end.threads[end.flights[r]]) && end.threads[end.flights[r]].req == r
  {
    RunKeepsInv(w, es);
    var end := Run(w, es);
    assert ThreadOk(end, o);
    assert FlightOk(end, end.threads[o].req);
  }

  /** A create whose reply is lost may have landed: the flight fails, the entity is there,
      and from then on a lookup that is answered shows it and nothing else. */
  lemma LostReplyLands(w: World, t: Tid, r: Req, id: int)
    requires Inv(w) && t in w.threads && w.threads[t] == Posting(r) && id !in w.server && id > 0
    ensures var w' := Step(w, Act(t, PostLost(Some(id))));
            && w'.threads[t] == Landing(r, None) && w'.cache == w.cache
            && Matches(w', r) == {id}
            && forall shown :: Shows(Matches(w', r), shown) ==> shown == [id]
  {
    assert ThreadOk(w, t);
    var w' := Step(w, Act(t, PostLost(Some(id))));
    OneMoreMatch(w, w', r, id);
    assert |{id}| == 1;
  }

  // ---- The flight -----------------------------------------------------------------------------

  predicate InFlight(w: World, t: Tid, r: Req) {
    t in w.threads && Leads(w.threads[t]) && w.threads[t].req == r
  }

  /** `a` answers what the caller is asking. */
  predicate Answers(w: World, t: Tid, a: Answer) {
    t in w.threads ==>
      match w.threads[t]
      case Rechecking(_) => a.Rechecked?
      case Finding(r) => a.FindFailed? || (a.Found? && Shows(Matches(w, r), a.shown))
      case Posting(_) =>
        a.PostConflict? || a.PostRefused? || a.PostLost? || (a.PostCreated? && a.id !in w.server && a.id > 0)
      case Refetching(r) => a.FindFailed? || (a.Found? && Shows(Matches(w, r), a.shown))
      case Putting(_, _) => a.CachePut?
      case Landing(_, _) => a.Landed?
      case _ => true
  }

  /** The process lives, and what `t` asks is answered. */
  predicate AnsweredStep(w: World, t: Tid, e: Event) {
    e.Act? && (e.t == t ==> Answers(w, t, e.a))
  }

  predicate AnsweredRun(w: World, t: Tid, es: seq<Event>) {
    forall i :: 0 <= i < |es| ==> AnsweredStep(Run(w, es[..i]), t, es[i])
  }

  function OwnSteps(es: seq<Event>, t: Tid): nat {
    if es == [] then 0
    else OwnSteps(es[..|es| - 1], t) + if es[|es| - 1].Act? && es[|es| - 1].t == t then 1 else 0
  }

  /** The most steps that a leader still takes. */
  function Left(th: Thread): nat {
    match th
    case Rechecking(_) => 6
    case Finding(_) => 5
    case Posting(_) => 4
    case Refetching(_) => 3
    case Putting(_, _) => 2
    case Landing(_, _) => 1
    case _ => 0
  }

  predicate StillWait(w0: World, w: World, r: Req) {
    forall o :: o in w0.threads && w0.threads[o] == Waiting(r) ==> o in w.threads && w.threads[o] == Waiting(r)
  }

  /** The leader is done and the flight is over; all who waited from the start have its
      outcome, and nobody waits for the key any more. */
  predicate HasLanded(w0: World, w: World, t: Tid, r: Req) {
    && t in w.threads && w.threads[t].Done? && w.threads[t].req == r && r !in w.flights
    && (forall o :: o in w0.threads && w0.threads[o] == Waiting(r) ==>
          o in w.threads && w.threads[o] == Done(r, w.threads[t].outcome))
    && (forall o :: o in w.threads ==> w.threads[o] != Waiting(r))
  }

  /** A flight under way, some of whose leader's steps are used up. */
  predicate UnderWay(w0: World, w: World, t: Tid, r: Req, used: nat) {
    t in w0.threads && InFlight(w, t, r) && StillWait(w0, w, r) && Left(w.threads[t]) + used <= Left(w0.threads[t])
  }

  lemma LandingServes(w0: World, w: World, t: Tid, r: Req, outcome: Option<int>)
    requires t in w.threads && w.threads[t] == Landing(r, outcome) && StillWait(w0, w, r)
    ensures HasLanded(w0, Step(w, Act(t, Landed)), t, r)
  {
    var w' := Step(w, Act(t, Landed));
    assert w'.threads[t] == Done(r, outcome);
    forall o | o in w.threads && w.threads[o] == Waiting(r) ensures w'.threads[o] == Done(r, outcome) {}
  }

  /** Where every other answer takes the leader. */
  lemma AnswerMoves(w: World, t: Tid, r: Req, a: Answer)
    requires InFlight(w, t, r) && Answers(w, t, a) && !w.threads[t].Landing?
    ensures var m := MoveOf(w, t, a);
            && m.Some? && !m.value.does.Deliver?
            && Leads(m.value.next) && m.value.next.req == r && Left(m.value.next) < Left(w.threads[t])
  {
  }

  lemma TakeMovesOne(w: World, t: Tid, m: Move)
    requires !m.does.Deliver?
    ensures Take(w, t, m).threads == w.threads[t := m.next]
  {
  }

  /** ... and nobody else goes anywhere. */
  lemma AnswerGoesOn(w: World, t: Tid, r: Req, a: Answer)
    requires InFlight(w, t, r) && Answers(w, t, a) && !w.threads[t].Landing?
    ensures var w' := Step(w, Act(t, a));
            && InFlight(w', t, r) && Left(w'.threads[t]) < Left(w.threads[t])
            && w'.threads == w.threads[t := w'.threads[t]]
  {
    AnswerMoves(w, t, r, a);
    TakeMovesOne(w, t, MoveOf(w, t, a).value);
  }

  lemma OwnStepGoesOn(w0: World, w: World, t: Tid, r: Req, a: Answer, used: nat)
    requires t in w0.threads && w0.threads[t] != Waiting(r)
    requires UnderWay(w0, w, t, r, used) && Answers(w, t, a)
    ensures var w' := Step(w, Act(t, a)); HasLanded(w0, w', t, r) || UnderWay(w0, w', t, r, used + 1)
  {
    if w.threads[t].Landing? {
      LandingServes(w0, w, t, r, w.threads[t].outcome);
    } else {
      AnswerGoesOn(w, t, r, a);
    }
  }

  /** Only the leader of a key delivers for it. */
  lemma DeliversItsOwn(w: World, o: Tid, a: Answer)
    requires MoveOf(w, o, a).Some? && MoveOf(w, o, a).value.does.Deliver?
    ensures o in w.threads && Leads(w.threads[o]) && MoveOf(w, o, a).value.does.req == w.threads[o].req
  {
  }

  lemma TakeLeaves(w: World, o: Tid, m: Move, t: Tid)
    requires t != o && t in w.threads
    requires m.does.Deliver? && w.threads[t].Waiting? ==> m.does.req != w.threads[t].req
    ensures var w' := Take(w, o, m); t in w'.threads && w'.threads[t] == w.threads[t]
  {
  }

  /** A step of caller `o` leaves another one where it is, unless `o` leads its flight. */
  lemma OthersMove(w: World, o: Tid, a: Answer, t: Tid)
    requires t != o && t in w.threads
    requires w.threads[t].Waiting? && o in w.threads && Leads(w.threads[o]) ==> w.threads[o].req != w.threads[t].req
    ensures var w' := Step(w, Act(o, a)); t in w'.threads && w'.threads[t] == w.threads[t]
  {
    if MoveOf(w, o, a).Some? {
      var m := MoveOf(w, o, a).value;
      if m.does.Deliver? { DeliversItsOwn(w, o, a); }
      TakeLeaves(w, o, m, t);
    }
  }

  lemma WaiterStays(w: World, a: Answer, o: Tid)
    requires o in w.threads && w.threads[o].Waiting?
    ensures Step(w, Act(o, a)) == w
  {
  }

  lemma OthersStepGoesOn(w0: World, w: World, t: Tid, r: Req, o: Tid, a: Answer, used: nat)
    requires Inv(w) && o != t && UnderWay(w0, w, t, r, used)
    ensures UnderWay(w0, Step(w, Act(o, a)), t, r, used)
  {
    var w' := Step(w, Act(o, a));
    OthersMove(w, o, a, t);
    forall x | x in w0.threads && w0.threads[x] == Waiting(r) ensures x in w'.threads && w'.threads[x] == Waiting(r) {
      if x == o {
        WaiterStays(w, a, o);
      } else {
        assert ThreadOk(w, t);
        if o in w.threads && Leads(w.threads[o]) && w.threads[o].req == r {
          assert ThreadOk(w, o);
          OneLeader(w, t, o);
        }
        OthersMove(w, o, a, x);
      }
    }
  }

  lemma NextStep(w0: World, w: World, t: Tid, r: Req, e: Event, used: nat)
    requires InFlight(w0, t, r) && Inv(w) && UnderWay(w0, w, t, r, used) && AnsweredStep(w, t, e)
    ensures var w' := Step(w, e);
            HasLanded(w0, w', t, r) || UnderWay(w0, w', t, r, used + if e.t == t then 1 else 0)
  {
    if e.t == t {
      OwnStepGoesOn(w0, w, t, r, e.a, used);
    } else {
      OthersStepGoesOn(w0, w, t, r, e.t, e.a, used);
    }
  }

  predicate UnderWayAt(w0: World, es: seq<Event>, t: Tid, r: Req, n: nat)
    requires n <= |es|
  {
    UnderWay(w0, Run(w0, es[..n]), t, r, OwnSteps(es[..n], t))
  }

  lemma NextEvent(w0: World, es: seq<Event>, t: Tid, r: Req, n: nat) returns (landed: bool)
    requires Inv(w0) && InFlight(w0, t, r) && AnsweredRun(w0, t, es) && n < |es| && UnderWayAt(w0, es, t, r, n)
    ensures if landed then HasLanded(w0, Run(w0, es[..n + 1]), t, r) else UnderWayAt(w0, es, t, r, n + 1)
  {
    RunKeepsInv(w0, es[..n]);
    assert AnsweredStep(Run(w0, es[..n]), t, es[n]);
    NextStep(w0, Run(w0, es[..n]), t, r, es[n], OwnSteps(es[..n], t));
    assert es[..n + 1][..n] == es[..n];
    landed := HasLanded(w0, Run(w0, es[..n + 1]), t, r);
  }

  /** After `n` events the flight has landed at one of them, or is under way. */
  lemma {:induction false} GoesOn(w0: World, es: seq<Event>, t: Tid, r: Req, n: nat) returns (landed: bool, k: nat)
    requires Inv(w0) && InFlight(w0, t, r) && AnsweredRun(w0, t, es) && n <= |es| && UnderWayAt(w0, es, t, r, 0)
    ensures k <= n
    ensures if landed then HasLanded(w0, Run(w0, es[..k]), t, r) else UnderWayAt(w0, es, t, r, n)
  {
    landed, k := false, n;
    if n > 0 {
      landed, k := GoesOn(w0, es, t, r, n - 1);
      if !landed {
        k := n;
        landed := NextEvent(w0, es, t, r, n - 1);
      }
    }
  }

  /** A leader whose calls are answered, in whatever way, is done after at most six steps of
      its own, however the other callers move; and at that event everyone who waited for its
      key has its outcome. */
  lemma FlightLands(w: World, es: seq<Event>, t: Tid, r: Req) returns (k: nat)
    requires Inv(w) && InFlight(w, t, r) && AnsweredRun(w, t, es) && OwnSteps(es, t) >= Left(w.threads[t])
    ensures k <= |es| && HasLanded(w, Run(w, es[..k]), t, r)
  {
    var landed;
    assert es[..0] == [] && es[..|es|] == es;
    landed, k := GoesOn(w, es, t, r, |es|);
    if !landed {
      LeftIsPositive(Run(w, es).threads[t]);
      assert false;
    }
  }

  lemma LeftIsPositive(th: Thread)
    ensures Left(th) > 0 <==> Leads(th)
  {
  }

  function NextAnswer(w: World, t: Tid): Answer {
    if t !in w.threads then Rechecked
    else
      match w.threads[t]
      case Finding(_) => FindFailed
      case Posting(_) => PostRefused
      case Refetching(_) => FindFailed
      case Putting(_, _) => CachePut
      case Landing(_, _) => Landed
      case _ => Rechecked
  }

  /** There are such runs, of any length, in every state. */
  lemma {:induction false} AnsweredRunsExist(w: World, t: Tid, n: nat) returns (es: seq<Event>)
    ensures AnsweredRun(w, t, es) && OwnSteps(es, t) == n
  {
    es := [];
    if n > 0 {
      var before := AnsweredRunsExist(w, t, n - 1);
      es := before + [Act(t, NextAnswer(Run(w, before), t))];
      assert es[..|before|] == before;
      forall i | 0 <= i < |es| ensures AnsweredStep(Run(w, es[..i]), t, es[i]) {
        assert es[..i] == if i < |before| then before[..i] else before;
      }
    }
  }
}
