/** The REEN session token shared by every goroutine of the SULO adapter
    (internal/adapters/sulo/client.go): session, invalidate and get.

    Session and invalidate run under the client's mutex, so each is one step; the request
    itself is sent outside it, and any number of gets interleave. */
module Session {
  import opened Canonical

  type Tid = int

  datatype Outcome = Fetched | TransientError | PermanentError

  /** Where one get stands: about to ask for a token, about to send with the one it was
      given, about to report a 401, or over. `sent` counts its requests; `burned` is the
      generation its first attempt reported, 0 before that. */
  datatype Phase =
    | Asking(attempt: nat, sent: nat, burned: nat)
    | Sending(attempt: nat, sent: nat, burned: nat, token: string, gen: nat)
    | Burning(sent: nat, gen: nat)
    | Over(sent: nat, outcome: Outcome)

  /** What has ever happened: the token of each login in order, which goroutine saw a 401 on
      a first attempt with which generation, and who dropped which generation's token. */
  datatype History = History(minted: seq<string>, saw: set<(Tid, nat)>, dropped: map<nat, Tid>)

  datatype World = World(token: string, gen: nat, threads: map<Tid, Phase>, hist: History)

  datatype Answer =
    | Begun
    | SessionAsked(minted: string)
    | LoginFailed(outcome: Outcome)
    | Responded(status: int, parses: bool)
    | TransportFailed
    | RequestNotBuilt
    | Invalidated

  datatype Event = Act(t: Tid, a: Answer)

  predicate Fresh(w: World) {
    w == World("", 0, map[], History([], {}, map[]))
  }

  /** The error class of a response (classifyStatus, then the decode of the body). */
  function Classify(status: int, parses: bool): Outcome {
    if 200 <= status < 300 then (if parses then Fetched else TransientError)
    else if status == 429 || status >= 500 then TransientError
    else PermanentError
  }

  /** session: the cached token, or a fresh login under the same lock. */
  function Ask(w: World, t: Tid, minted: string): World
    requires t in w.threads && w.threads[t].Asking?
  {
    var ph := w.threads[t];
    if w.token != "" then
      w.(threads := w.threads[t := Sending(ph.attempt, ph.sent, ph.burned, w.token, w.gen)])
    else if minted == "" then
      w.(threads := w.threads[t := Over(ph.sent, PermanentError)])
    else
      World(minted, w.gen + 1,
            w.threads[t := Sending(ph.attempt, ph.sent, ph.burned, minted, w.gen + 1)],
            w.hist.(minted := w.hist.minted + [minted]))
  }

  /** invalidate: drops the cached token only if it is still the reported generation's. */
  function Invalidate(w: World, t: Tid): World
    requires t in w.threads && w.threads[t].Burning?
  {
    var ph := w.threads[t];
    var threads := w.threads[t := Asking(1, ph.sent, ph.gen)];
    if w.gen == ph.gen && w.token != "" then
      World("", w.gen, threads, w.hist.(dropped := w.hist.dropped[w.gen := t]))
    else
      w.(threads := threads)
  }

  /** One GET has been answered with a status. */
  function Respond(w: World, t: Tid, status: int, parses: bool): World
    requires t in w.threads && w.threads[t].Sending?
  {
    var ph := w.threads[t];
    if status == 401 && ph.attempt == 0 then
      w.(threads := w.threads[t := Burning(ph.sent + 1, ph.gen)],
         hist := w.hist.(saw := w.hist.saw + {(t, ph.gen)}))
    else
      w.(threads := w.threads[t := Over(ph.sent + 1, Classify(status, parses))])
  }

  function Step(w: World, e: Event): World {
    var t := e.t;
    match e.a
    case Begun =>
      if t !in w.threads || w.threads[t].Over? then w.(threads := w.threads[t := Asking(0, 0, 0)]) else w
    case SessionAsked(minted) =>
      if t in w.threads && w.threads[t].Asking? then Ask(w, t, minted) else w
    case LoginFailed(outcome) =>
      if t in w.threads && w.threads[t].Asking? && w.token == "" && !outcome.Fetched?
      then w.(threads := w.threads[t := Over(w.threads[t].sent, outcome)]) else w
    case Responded(status, parses) =>
      if t in w.threads && w.threads[t].Sending? then Respond(w, t, status, parses) else w
    case TransportFailed =>
      if t in w.threads && w.threads[t].Sending?
      then w.(threads := w.threads[t := Over(w.threads[t].sent + 1, TransientError)]) else w
    case RequestNotBuilt =>
      if t in w.threads && w.threads[t].Sending?
      then w.(threads := w.threads[t := Over(w.threads[t].sent, PermanentError)]) else w
    case Invalidated =>
      if t in w.threads && w.threads[t].Burning? then Invalidate(w, t) else w
  }

  function Run(w: World, es: seq<Event>): World {
    if es == [] then w else Step(Run(w, es[..|es| - 1]), es[|es| - 1])
  }

  lemma {:induction false} RunAppend(w: World, es: seq<Event>, more: seq<Event>)
    ensures Run(w, es + more) == Run(Run(w, es), more)
  {
    if more == [] {
      assert es + more == es;
    } else {
      var n := |more| - 1;
      RunAppend(w, es, more[..n]);
      assert (es + more)[..|es + more| - 1] == es + more[..n];
    }
  }

  // ---- What every step keeps ----------------------------------------------------------

  /** `token` is the one generation `gen` was given. */
  predicate IsGeneration(w: World, token: string, gen: nat) {
    1 <= gen <= |w.hist.minted| && token == w.hist.minted[gen - 1] && token != ""
  }

  /** Generation `gen` will never be handed out again. */
  predicate Spent(w: World, gen: nat) {
    gen < w.gen || (gen == w.gen && w.token == "")
  }

  predicate ThreadOk(w: World, t: Tid)
    requires t in w.threads
  {
    match w.threads[t]
    case Asking(attempt, sent, burned) =>
      attempt <= 1 && sent == attempt && Spent(w, burned)
    case Sending(attempt, sent, burned, token, gen) =>
      attempt <= 1 && sent == attempt && burned < gen && IsGeneration(w, token, gen)
    case Burning(sent, gen) => sent == 1 && (t, gen) in w.hist.saw && 1 <= gen <= w.gen
    case Over(sent, _) => sent <= 2
  }

  ghost predicate TokensOk(w: World) {
    && w.gen == |w.hist.minted|
    && (w.token != "" ==> IsGeneration(w, w.token, w.gen))
    && (forall n: nat :: n in w.hist.dropped <==> 1 <= n <= w.gen && Spent(w, n))
    && (forall n: nat :: n in w.hist.dropped ==> (w.hist.dropped[n], n) in w.hist.saw)
    && (forall p :: p in w.hist.saw ==> 1 <= p.1 <= w.gen)
  }

  ghost predicate Inv(w: World) {
    && TokensOk(w)
    && (forall t :: t in w.threads ==> ThreadOk(w, t))
  }

  lemma StepKeepsTokens(w: World, e: Event)
    requires TokensOk(w) && (e.t in w.threads ==> ThreadOk(w, e.t))
    ensures TokensOk(Step(w, e))
  {
  }

  /** Generations only grow, tokens are never forgotten, and what is spent stays spent. */
  predicate Later(w: World, w': World) {
    && w.hist.minted <= w'.hist.minted
    && w.hist.saw <= w'.hist.saw
    && (w'.gen > w.gen || (w'.gen == w.gen && (w.token == "" ==> w'.token == "")))
  }

  lemma StepIsLater(w: World, e: Event)
    requires TokensOk(w)
    ensures Later(w, Step(w, e))
  {
  }

  lemma OthersStayOk(w: World, e: Event, t: Tid)
    requires TokensOk(w) && t in w.threads && ThreadOk(w, t) && t != e.t
    ensures t in Step(w, e).threads && ThreadOk(Step(w, e), t)
  {
    StepIsLater(w, e);
    assert Step(w, e).threads[t] == w.threads[t];
  }

  lemma ActorStaysOk(w: World, e: Event)
    requires TokensOk(w) && (e.t in w.threads ==> ThreadOk(w, e.t))
    ensures e.t in Step(w, e).threads ==> ThreadOk(Step(w, e), e.t)
  {
  }

  lemma StepKeepsInv(w: World, e: Event)
    requires Inv(w)
    ensures Inv(Step(w, e))
  {
    StepKeepsTokens(w, e);
    ActorStaysOk(w, e);
    forall t | t in Step(w, e).threads && t != e.t ensures ThreadOk(Step(w, e), t) {
      OthersStayOk(w, e, t);
    }
  }

  lemma {:induction false} RunKeepsInv(w: World, es: seq<Event>)
    requires Inv(w)
    ensures Inv(Run(w, es))
  {
    if es != [] {
      RunKeepsInv(w, es[..|es| - 1]);
      StepKeepsInv(Run(w, es[..|es| - 1]), es[|es| - 1]);
    }
  }

  // ---- What a run of any number of gets delivers ------------------------------------------

  /** A token disappears only when its own generation is reported by a goroutine that saw a
      401 with it; an invalidate that comes late drops nothing. */
  lemma OnlyTheRejectedTokenIsDropped(first: World, es: seq<Event>, e: Event)
    requires Fresh(first)
    ensures var w, w' := Run(first, es), Step(Run(first, es), e);
            w.token != "" && w'.token != w.token ==>
              && w'.token == "" && e.a.Invalidated?
              && e.t in w.threads && w.threads[e.t].Burning? && w.threads[e.t].gen == w.gen
              && (e.t, w.gen) in w.hist.saw
    ensures var w, w' := Run(first, es), Step(Run(first, es), e);
            e.a.Invalidated? && e.t in w.threads && w.threads[e.t].Burning? && w.threads[e.t].gen < w.gen ==>
              w'.token == w.token && w'.gen == w.gen
  {
    RunKeepsInv(first, es);
    var w := Run(first, es);
    if e.t in w.threads {
      assert ThreadOk(w, e.t);
    }
  }

  /** The generations some goroutine saw rejected on a first attempt. */
  function RejectedGenerations(w: World): set<nat> {
    set p | p in w.hist.saw :: p.1
  }

  function UpTo(n: nat): (s: set<nat>)
    ensures forall i: nat :: i in s <==> 1 <= i <= n
    ensures |s| == n
  {
    if n == 0 then {} else UpTo(n - 1) + {n}
  }

  lemma {:induction false} SubsetIsSmaller(a: set<nat>, b: set<nat>)
    requires a <= b
    ensures |a| <= |b|
  {
    if a != {} {
      var x :| x in a;
      SubsetIsSmaller(a - {x}, b - {x});
    }
  }

  /** However many goroutines share the client and however their 401s interleave: every
      login but the last one's token was dropped, once, and at most one login follows each
      distinct rejected generation. */
  lemma LoginsAreBounded(first: World, es: seq<Event>)
    requires Fresh(first)
    ensures var w := Run(first, es);
            && w.gen == |w.hist.minted|
            && w.gen == |w.hist.dropped| + (if w.token != "" then 1 else 0)
            && w.hist.dropped.Keys <= RejectedGenerations(w)
            && w.gen <= 1 + |RejectedGenerations(w)|
  {
    RunKeepsInv(first, es);
    var w := Run(first, es);
    var keys := w.hist.dropped.Keys;
    forall n | n in keys ensures n in RejectedGenerations(w) {
      assert (w.hist.dropped[n], n) in w.hist.saw;
    }
    assert keys == UpTo(if w.token != "" then w.gen - 1 else w.gen);
    SubsetIsSmaller(keys, RejectedGenerations(w));
  }

  /** No get sends a third request, and a retry never replays the token its first attempt
      saw rejected: the one it holds belongs to a later generation. */
  lemma TwoRequestsTwoTokens(first: World, es: seq<Event>, t: Tid)
    requires Fresh(first) && t in Run(first, es).threads
    ensures var ph := Run(first, es).threads[t];
            && ph.sent <= 2
            && (ph.Sending? ==> ph.sent <= 1 && ph.burned < ph.gen)
            && (ph.Sending? && ph.attempt == 1 && ph.burned > 0 ==>
                  ph.burned in Run(first, es).hist.dropped)
  {
    RunKeepsInv(first, es);
    assert ThreadOk(Run(first, es), t);
  }

  /** An event of some other goroutine. */
  predicate Foreign(t: Tid, e: Event) {
    e.t != t
  }

  predicate LeftAlone(w: World, w': World, t: Tid) {
    && (t in w'.threads <==> t in w.threads)
    && (t in w.threads ==> w'.threads[t] == w.threads[t])
  }

  lemma {:induction false} ForeignRun(w: World, es: seq<Event>, t: Tid)
    requires Inv(w)
    requires forall i :: 0 <= i < |es| ==> Foreign(t, es[i])
    ensures Inv(Run(w, es)) && LeftAlone(w, Run(w, es), t)
  {
    if es != [] {
      var n := |es| - 1;
      ForeignRun(w, es[..n], t);
      StepKeepsInv(Run(w, es[..n]), es[n]);
    }
  }

  /** Goroutine `t` has dropped no further token. */
  ghost predicate DropsNoMore(w: World, w': World, t: Tid) {
    forall n :: n in w'.hist.dropped && w'.hist.dropped[n] == t ==> n in w.hist.dropped && w.hist.dropped[n] == t
  }

  lemma {:induction false} ForeignDrops(w: World, es: seq<Event>, t: Tid)
    requires forall i :: 0 <= i < |es| ==> Foreign(t, es[i])
    ensures DropsNoMore(w, Run(w, es), t)
  {
    if es != [] {
      var n := |es| - 1;
      ForeignDrops(w, es[..n], t);
      assert Foreign(t, es[n]) && DropsNoMore(Run(w, es[..n]), Step(Run(w, es[..n]), es[n]), t);
    }
  }

  /** How a get may end after its last step, by the status of the answer. */
  predicate EndsWell(a: Answer, res: Outcome) {
    match a
    case Responded(status, parses) =>
      && (res.Fetched? <==> 200 <= status <= 299 && parses)
      && (res.TransientError? <==> status == 429 || status >= 500 || (200 <= status <= 299 && !parses))
    case TransportFailed => res.TransientError?
    case RequestNotBuilt => res.PermanentError?
    case LoginFailed(outcome) => res == outcome && !res.Fetched?
    case SessionAsked(minted) => minted == "" && res.PermanentError?
    case _ => false
  }

  /** The run's last event is a step of `t`. */
  predicate JustTook(trace: seq<Event>, t: Tid, a: Answer) {
    |trace| > 0 && trace[|trace| - 1] == Act(t, a)
  }

  /** The client object. `Others` stands for the other goroutines, which may run between
      any two of a get's steps but not inside a critical section. */
  class Client {
    var token: string
    var gen: nat
    var w: World
    ghost var first: World
    ghost var trace: seq<Event>

    ghost predicate Valid()
      reads this
    {
      && Fresh(first) && w == Run(first, trace) && Inv(w)
      && token == w.token && gen == w.gen
    }

    twostate predicate Extended()
      reads this
    {
      Valid() && first == old(first) && old(trace) <= trace
    }

    ghost predicate At(t: Tid, ph: Phase)
      reads this
    {
      t in w.threads && w.threads[t] == ph
    }

    constructor ()
      ensures Valid() && trace == []
    {
      token, gen := "", 0;
      w, first, trace := World("", 0, map[], History([], {}, map[])), World("", 0, map[], History([], {}, map[])), [];
    }

    /** The other goroutines run, for as long as they like. */
    method Others(t: Tid)
      requires Valid()
      modifies this
      ensures Extended() && LeftAlone(old(w), w, t) && DropsNoMore(old(w), w, t)
    {
      var es: seq<Event> := *;
      if forall i | 0 <= i < |es| :: Foreign(t, es[i]) {
        ForeignRun(w, es, t);
        ForeignDrops(w, es, t);
        RunAppend(first, trace, es);
        w := Run(w, es);
        token, gen := w.token, w.gen;
        trace := trace + es;
      }
    }

    /** Goroutine `t` has taken a step, and the fields have followed it. */
    method Take(t: Tid, a: Answer)
      requires Fresh(first) && w == Run(first, trace) && Inv(w)
      requires var w' := Step(w, Act(t, a)); token == w'.token && gen == w'.gen
      modifies `w, `trace
      ensures Extended() && w == Step(old(w), Act(t, a)) && JustTook(trace, t, a)
    {
      StepKeepsInv(w, Act(t, a));
      w := Step(w, Act(t, a));
      trace := trace + [Act(t, a)];
      assert trace[..|trace| - 1] == old(trace);
    }

    /** A usable token and its generation, logging in when none is cached. */
    method Session(t: Tid) returns (tok: string, g: nat, err: Option<Outcome>)
      requires Valid() && t in w.threads && w.threads[t].Asking?
      modifies this
      ensures Extended()
      ensures var ph := old(w).threads[t];
              && At(t, if err.None? then Sending(ph.attempt, ph.sent, ph.burned, tok, g)
                       else Over(ph.sent, err.value))
      ensures err.Some? ==> !err.value.Fetched? && exists a :: JustTook(trace, t, a) && EndsWell(a, err.value)
    {
      Others(t);
      if token != "" {
        Take(t, SessionAsked(""));
        return token, gen, None;
      }
      var denied: Option<Outcome> := *;
      if denied.Some? && !denied.value.Fetched? {
        Take(t, LoginFailed(denied.value));
        return "", 0, denied;
      }
      var minted: string := *;
      if minted == "" {
        Take(t, SessionAsked(minted));
        return "", 0, Some(PermanentError);
      }
      token := minted;
      gen := gen + 1;
      Take(t, SessionAsked(minted));
      return token, gen, None;
    }

    /** Drops the cached token, but only if it is still the one the caller was using. */
    method Invalidate(t: Tid, g: nat)
      requires Valid() && t in w.threads && w.threads[t].Burning? && w.threads[t].gen == g
      modifies this
      ensures Extended() && At(t, Asking(1, old(w).threads[t].sent, g))
      ensures Spent(w, g)
      ensures forall n :: n in w.hist.dropped && w.hist.dropped[n] == t && n != g ==>
                n in old(w).hist.dropped && old(w).hist.dropped[n] == t
    {
      Others(t);
      if gen == g {
        token := "";
      }
      Take(t, Invalidated);
    }

    /** One request, unless it cannot be built. None is a first-attempt 401, Some is how the
        get ends. */
    method Do(t: Tid, attempt: nat, burned: nat, tok: string, g: nat)
      returns (res: Option<Outcome>, built: bool)
      requires Valid() && At(t, Sending(attempt, attempt, burned, tok, g))
      modifies this
      ensures Extended()
      ensures At(t, if !built then Over(attempt, PermanentError)
                    else if res.None? then Burning(attempt + 1, g)
                    else Over(attempt + 1, res.value))
      ensures res.None? ==> built && attempt == 0
      ensures !built ==> res == Some(PermanentError)
      ensures exists a :: JustTook(trace, t, a)
                && (if res.Some? then EndsWell(a, res.value) else a.Responded? && a.status == 401)
                && (attempt == 0 && a.Responded? && a.status == 401 ==> res.None?)
    {
      Others(t);
      built := *;
      if !built {
        Take(t, RequestNotBuilt);
        return Some(PermanentError), false;
      }
      var transportFailed: bool := *;
      if transportFailed {
        Take(t, TransportFailed);
        return Some(TransientError), true;
      }
      var status: int, parses: bool := *, *;
      Take(t, Responded(status, parses));
      if status == 401 && attempt == 0 {
        return None, true;
      }
      return Some(Classify(status, parses)), true;
    }

    /** An authenticated GET: a first 401 buys one retry with a later token. */
    method Get(t: Tid) returns (res: Outcome, ghost sent: nat)
      requires Valid() && (t in w.threads ==> w.threads[t].Over?)
      modifies this
      ensures Extended() && At(t, Over(sent, res)) && sent <= 2
      ensures exists a :: JustTook(trace, t, a) && EndsWell(a, res)
    {
      Take(t, Begun);
      var attempt := 0;
      var burned := 0;
      while true
        invariant Extended() && attempt <= 1 && At(t, Asking(attempt, attempt, burned))
        decreases 2 - attempt
      {
        var tok, g, denied := Session(t);
        if denied.Some? {
          return denied.value, attempt;
        }
        var answer, built := Do(t, attempt, burned, tok, g);
        if answer.Some? {
          return answer.value, if built then attempt + 1 else attempt;
        }
        Invalidate(t, g);
        attempt, burned := attempt + 1, g;
      }
    }
  }
}
