/** The name-keyed upsert of internal/frost/writer.go (GetOrCreate, resolveUncached) as a
    state machine: any number of callers, interleaved step by step against a server that
    accepts duplicate names, lost replies and process restarts included. */
module Upsert {
  import opened Canonical

  type Tid = nat

  /** An entity of a collection, by name. */
  datatype Req = Req(entity: string, name: string)

  /** The cache and flight key: the entity, a bar, the name. */
  function Key(r: Req): string {
    r.entity + "|" + r.name
  }

  /** The collections the layer upserts into (client.go's Entity constants). */
  const ENTITIES: set<string> := {
    "Things", "Locations", "Sensors", "ObservedProperties", "Datastreams", "FeaturesOfInterest", "Observations"
  }

  predicate Barless(s: string) {
    forall i :: 0 <= i < |s| ==> s[i] != '|'
  }

  lemma EntitiesAreBarless(e: string)
    requires e in ENTITIES
    ensures Barless(e)
  {
  }

  /** The bar after the entity is the first one in the key. */
  lemma FirstBar(a: Req)
    requires Barless(a.entity)
    ensures |a.entity| < |Key(a)| && Key(a)[|a.entity|] == '|'
    ensures forall i :: 0 <= i < |a.entity| ==> Key(a)[i] != '|'
    ensures Key(a)[..|a.entity|] == a.entity && Key(a)[|a.entity| + 1..] == a.name
  {
  }

  /** The key determines the entity and the name, bars in the name notwithstanding. */
  lemma KeyIsInjective(a: Req, b: Req)
    requires Barless(a.entity) && Barless(b.entity) && Key(a) == Key(b)
    ensures a == b
  {
    FirstBar(a);
    FirstBar(b);
  }

  /** Where a caller stands. From Rechecking to Landing it leads the flight of its key. */
  datatype Thread =
    | Missed(req: Req)
    | Waiting(req: Req)
    | Rechecking(req: Req)
    | Finding(req: Req)
    | Posting(req: Req)
    | Refetching(req: Req)
    | Putting(req: Req, id: int)
    | Landing(req: Req, outcome: Option<int>)
    | Done(req: Req, outcome: Option<int>)

  /** The process (cache, flights, threads), the server, and what was ever put and returned. */
  datatype World = World(
    cache: map<Req, int>,
    flights: map<Req, Tid>,
    threads: map<Tid, Thread>,
    server: map<int, Req>,
    puts: map<Req, nat>,
    returned: set<(Req, int)>)

  datatype Answer =
    | Called(req: Req) | Entered | Rechecked
    | Found(shown: seq<int>) | FindFailed
    | PostCreated(id: int) | PostConflict | PostRefused | PostLost(landed: Option<int>)
    | CachePut
    | Landed

  datatype Event =
    | Act(t: Tid, a: Answer)
    | Restart

  const FIND_TOP := 10
  const MAX_NAME := 255

  function Matches(w: World, r: Req): set<int> {
    set id | id in w.server && w.server[id] == r
  }

  predicate Distinct(ids: seq<int>) {
    forall i, j :: 0 <= i < j < |ids| ==> ids[i] != ids[j]
  }

  /** What `$top=10` without an order may show of the matches. */
  predicate Shows(matches: set<int>, shown: seq<int>) {
    && Distinct(shown)
    && (forall i :: 0 <= i < |shown| ==> shown[i] in matches)
    && |shown| == if |matches| < FIND_TOP then |matches| else FIND_TOP
  }

  /** FindByName refuses an empty or overlong name before asking. */
  predicate Askable(r: Req) {
    0 < |r.name| <= MAX_NAME
  }

  /** FindByName's choice among several matches. */
  function Lowest(ids: seq<int>): (low: int)
    requires ids != []
    ensures low in ids && forall i :: 0 <= i < |ids| ==> low <= ids[i]
  {
    if |ids| == 1 then ids[0]
    else
      var low := Lowest(ids[..|ids| - 1]);
      if ids[|ids| - 1] < low then ids[|ids| - 1] else low
  }

  method FindLowest(ids: seq<int>) returns (low: int)
    requires ids != []
    ensures low == Lowest(ids)
  {
    low := ids[0];
    assert ids[..1] == [ids[0]];
    for i := 1 to |ids|
      invariant low == Lowest(ids[..i])
    {
      assert ids[..i + 1][..i] == ids[..i];
      if ids[i] < low {
        low := ids[i];
      }
    }
    assert ids[..|ids|] == ids;
  }

  // ---- One step of one caller -------------------------------------------------------------

  datatype Deed =
    | Nothing
    | Fly(key: Req)
    | Put(req: Req, id: int)
    | Make(req: Req, id: int)
    | Deliver(req: Req, outcome: Option<int>)

  datatype Move = Move(next: Thread, does: Deed)

  function Fail(r: Req): Move {
    Move(Landing(r, None), Nothing)
  }

  function Hit(r: Req, id: int): Move {
    Move(Putting(r, id), Nothing)
  }

  /** The lookup before the POST: a match is cached, no match leads to a create. */
  function FindMove(w: World, r: Req, a: Answer): Move {
    match a
    case FindFailed => Fail(r)
    case Found(shown) =>
      if !Askable(r) then Fail(r)
      else if !Shows(Matches(w, r), shown) then Move(Finding(r), Nothing)
      else if shown == [] then Move(Posting(r), Nothing)
      else Hit(r, Lowest(shown))
    case _ => Move(Finding(r), Nothing)
  }

  function PostMove(w: World, r: Req, a: Answer): Move {
    match a
    case PostCreated(id) =>
      if id in w.server || id <= 0 then Move(Posting(r), Nothing)
      else Move(Putting(r, id), Make(r, id))
    case PostConflict => Move(Refetching(r), Nothing)
    case PostRefused => Fail(r)
    case PostLost(landed) =>
      if landed.Some? && landed.value !in w.server && landed.value > 0
      then Move(Landing(r, None), Make(r, landed.value))
      else Fail(r)
    case _ => Move(Posting(r), Nothing)
  }

  /** The one refetch after a 409: an error, no match or several matches all fail. */
  function RefetchMove(w: World, r: Req, a: Answer): Move {
    match a
    case FindFailed => Fail(r)
    case Found(shown) =>
      if !Shows(Matches(w, r), shown) then Move(Refetching(r), Nothing)
      else if |shown| == 1 then Hit(r, shown[0])
      else Fail(r)
    case _ => Move(Refetching(r), Nothing)
  }

  function MoveOf(w: World, t: Tid, a: Answer): Option<Move> {
    if t !in w.threads then
      match a
      case Called(r) =>
        if r in w.cache then Some(Move(Done(r, Some(w.cache[r])), Nothing))
        else Some(Move(Missed(r), Nothing))
      case _ => None
    else
      match (w.threads[t], a)
      case (Missed(r), Entered) =>
        if r in w.flights then Some(Move(Waiting(r), Nothing))
        else Some(Move(Rechecking(r), Fly(r)))
      case (Rechecking(r), Rechecked) =>
        if r in w.cache then Some(Move(Landing(r, Some(w.cache[r])), Nothing))
        else Some(Move(Finding(r), Nothing))
      case (Finding(r), _) => Some(FindMove(w, r, a))
      case (Posting(r), _) => Some(PostMove(w, r, a))
      case (Refetching(r), _) => Some(RefetchMove(w, r, a))
      case (Putting(r, id), CachePut) => Some(Move(Landing(r, Some(id)), Put(r, id)))
      case (Landing(r, outcome), Landed) => Some(Move(Done(r, outcome), Deliver(r, outcome)))
      case _ => None
  }

  /** When a flight lands, everyone waiting on its key gets its outcome. */
  function Deliveries(threads: map<Tid, Thread>, key: Req, outcome: Option<int>): map<Tid, Thread> {
    map t | t in threads ::
      if threads[t].Waiting? && threads[t].req == key then Done(threads[t].req, outcome) else threads[t]
  }

  function PutInCache(w: World, r: Req, id: int): World {
    var n := if r in w.puts then w.puts[r] else 0;
    w.(cache := w.cache[r := id], puts := w.puts[r := n + 1])
  }

  function Perform(w: World, d: Deed): World {
    match d
    case Nothing => w
    case Fly(_) => w
    case Put(r, id) => PutInCache(w, r, id)
    case Make(r, id) => w.(server := w.server[id := r])
    case Deliver(r, outcome) =>
      w.(flights := w.flights - {r}, threads := Deliveries(w.threads, r, outcome))
  }

  /** The ids this step hands to callers. */
  function Returns(next: Thread): set<(Req, int)> {
    if next.Done? && next.outcome.Some? then {(next.req, next.outcome.value)} else {}
  }

  /** The caller moves and the deed is done. */
  function Take(w: World, t: Tid, m: Move): World {
    var w' := Perform(w, m.does);
    w'.(threads := w'.threads[t := m.next],
        flights := if m.does.Fly? then w'.flights[m.does.key := t] else w'.flights,
        returned := w'.returned + Returns(m.next))
  }

  function Step(w: World, e: Event): World {
    match e
    case Restart => w.(cache := map[], flights := map[], threads := map[], puts := map[])
    case Act(t, a) =>
      match MoveOf(w, t, a)
      case None => w
      case Some(m) => Take(w, t, m)
  }

  function Run(w: World, es: seq<Event>): World {
    if es == [] then w else Step(Run(w, es[..|es| - 1]), es[|es| - 1])
  }

  // ---- Invariant --------------------------------------------------------------------------

  predicate Leads(th: Thread) {
    th.Rechecking? || th.Finding? || th.Posting? || th.Refetching? || th.Putting? || th.Landing?
  }

  /** `id` names the entity: a match, and the lowest one if the server can show them all. */
  predicate Names(w: World, r: Req, id: int) {
    && id in Matches(w, r)
    && (|Matches(w, r)| <= FIND_TOP ==> forall x :: x in Matches(w, r) ==> id <= x)
  }

  /** Leaders own their flight, and who waits has one to wait for; a POST is due only while
      the server has no match; an outcome that is an id is the cached id. */
  predicate ThreadOk(w: World, t: Tid)
    requires t in w.threads
  {
    var th := w.threads[t];
    var key := th.req;
    && (Leads(th) ==> key in w.flights && w.flights[key] == t)
    && (th.Waiting? ==> key in w.flights)
    && (th.Finding? || th.Posting? || th.Refetching? || th.Putting? ==> key !in w.cache)
    && (th.Posting? ==> Matches(w, th.req) == {})
    && (th.Putting? ==> Names(w, th.req, th.id))
    && (th.Landing? || th.Done? ==>
          th.outcome.Some? ==> key in w.cache && w.cache[key] == th.outcome.value)
  }

  predicate FlightOk(w: World, key: Req)
    requires key in w.flights
  {
    var t := w.flights[key];
    t in w.threads && Leads(w.threads[t]) && w.threads[t].req == key
  }

  ghost predicate Inv(w: World) {
    && (forall t :: t in w.threads ==> ThreadOk(w, t))
    && (forall key :: key in w.flights ==> FlightOk(w, key))
    && (forall r: Req :: r in w.cache ==> Names(w, r, w.cache[r]))
    && (forall r: Req, id :: (r, id) in w.returned ==> Names(w, r, id))
    && (forall key :: key in w.puts ==> key in w.cache && w.puts[key] == 1)
    && (forall id :: id in w.server ==> id > 0)
  }

  // ---- Preservation -------------------------------------------------------------------------

  lemma {:induction false} DistinctCount(ids: seq<int>)
    requires Distinct(ids)
    ensures |set x | x in ids| == |ids|
  {
    if ids != [] {
      var n := |ids| - 1;
      DistinctCount(ids[..n]);
      assert ids == ids[..n] + [ids[n]];
      assert (set x | x in ids) == (set x | x in ids[..n]) + {ids[n]};
      assert ids[n] !in ids[..n];
    }
  }

  lemma SameSize(a: set<int>, b: set<int>)
    requires a <= b && |a| == |b|
    ensures a == b
  {
    assert b == a + (b - a);
    assert |b - a| == 0;
  }

  /** What FindByName picks names the entity. */
  lemma LowestNames(w: World, r: Req, shown: seq<int>)
    requires Shows(Matches(w, r), shown) && shown != []
    ensures Names(w, r, Lowest(shown))
  {
    var matches := Matches(w, r);
    DistinctCount(shown);
    if |matches| <= FIND_TOP {
      SameSize((set x | x in shown), matches);
      forall x | x in matches ensures Lowest(shown) <= x {
        assert x in set x | x in shown;
        var i :| 0 <= i < |shown| && shown[i] == x;
      }
    }
  }

  /** An empty answer means there is no match. */
  lemma NothingShown(matches: set<int>)
    requires Shows(matches, [])
    ensures matches == {}
  {
  }

  /** Who may make a move, and what it relies on. */
  predicate Justified(w: World, t: Tid, m: Move) {
    match m.does
    case Nothing => Quiet(w, t, m.next)
    case Fly(key) =>
      && t in w.threads && w.threads[t].Missed? && m.next == Rechecking(w.threads[t].req)
      && key == m.next.req && key !in w.flights
    case Put(r, id) =>
      t in w.threads && w.threads[t] == Putting(r, id) && m.next == Landing(r, Some(id))
    case Make(r, id) =>
      && t in w.threads && w.threads[t] == Posting(r)
      && (m.next == Landing(r, None) || m.next == Putting(r, id)) && id !in w.server && id > 0
    case Deliver(r, outcome) =>
      t in w.threads && w.threads[t] == Landing(r, outcome) && m.next == Done(r, outcome)
  }

  /** A move without a deed takes its caller to a place it has earned. */
  predicate Quiet(w: World, t: Tid, th: Thread) {
    && (Leads(th) ==> t in w.threads && Leads(w.threads[t]) && w.threads[t].req == th.req)
    && (t in w.threads && Leads(w.threads[t]) ==> Leads(th))
    && (th.Waiting? ==> th.req in w.flights)
    && (th.Finding? || th.Posting? || th.Refetching? || th.Putting? ==> th.req !in w.cache)
    && (th.Posting? ==> Matches(w, th.req) == {})
    && (th.Putting? ==> Names(w, th.req, th.id))
    && (th.Landing? || th.Done? ==>
          th.outcome.Some? ==> th.req in w.cache && w.cache[th.req] == th.outcome.value)
  }

  lemma FindIsJustified(w: World, t: Tid, a: Answer)
    requires t in w.threads && ThreadOk(w, t) && w.threads[t].Finding?
    ensures Justified(w, t, FindMove(w, w.threads[t].req, a))
  {
    var r := w.threads[t].req;
    if a.Found? && Shows(Matches(w, r), a.shown) {
      if a.shown == [] { NothingShown(Matches(w, r)); } else { LowestNames(w, r, a.shown); }
    }
  }

  lemma RefetchIsJustified(w: World, t: Tid, a: Answer)
    requires t in w.threads && ThreadOk(w, t) && w.threads[t].Refetching?
    ensures Justified(w, t, RefetchMove(w, w.threads[t].req, a))
  {
    var r := w.threads[t].req;
    if a.Found? && Shows(Matches(w, r), a.shown) && |a.shown| == 1 {
      LowestNames(w, r, a.shown);
      assert Lowest(a.shown) == a.shown[0];
    }
  }

  lemma PostIsJustified(w: World, t: Tid, a: Answer)
    requires t in w.threads && ThreadOk(w, t) && w.threads[t].Posting?
    ensures Justified(w, t, PostMove(w, w.threads[t].req, a))
  {
  }

  lemma MoveIsJustified(w: World, t: Tid, a: Answer)
    requires Inv(w) && MoveOf(w, t, a).Some?
    ensures Justified(w, t, MoveOf(w, t, a).value)
  {
    if t in w.threads {
      assert ThreadOk(w, t);
      match w.threads[t] {
        case Finding(r) => FindIsJustified(w, t, a);
        case Refetching(r) => RefetchIsJustified(w, t, a);
        case Posting(r) => PostIsJustified(w, t, a);
        case _ =>
      }
    }
  }

  /** Two leaders of one key are the same caller. */
  lemma OneLeader(w: World, t: Tid, o: Tid)
    requires t in w.threads && o in w.threads && ThreadOk(w, t) && ThreadOk(w, o)
    requires Leads(w.threads[t]) && Leads(w.threads[o]) && w.threads[t].req == w.threads[o].req
    ensures t == o
  {
  }

  lemma SameMatches(w: World, w': World)
    requires w'.server == w.server
    ensures forall r :: Matches(w', r) == Matches(w, r)
  {
  }

  /** As long as the server keeps its matches, names and returned ids stay good. */
  lemma NamesKept(w: World, w': World)
    requires w'.server == w.server && w'.cache == w.cache
    requires forall r: Req :: r in w.cache ==> Names(w, r, w.cache[r])
    requires forall r: Req, id :: (r, id) in w.returned ==> Names(w, r, id)
    requires forall r: Req, id :: (r, id) in w'.returned && (r, id) !in w.returned ==>
               r in w.cache && id == w.cache[r]
    ensures forall r: Req :: r in w'.cache ==> Names(w', r, w'.cache[r])
    ensures forall r: Req, id :: (r, id) in w'.returned ==> Names(w', r, id)
  {
  }

  lemma ThreadKept(w: World, w': World, o: Tid)
    requires o in w.threads && ThreadOk(w, o) && o in w'.threads && w'.threads[o] == w.threads[o]
    requires w'.server == w.server && w'.cache == w.cache
    requires var r := w.threads[o].req;
             && (Leads(w.threads[o]) && r in w.flights && w.flights[r] == o ==> r in w'.flights && w'.flights[r] == o)
             && (w.threads[o].Waiting? ==> r in w'.flights)
    ensures ThreadOk(w', o)
  {
    SameMatches(w, w');
  }

  lemma QuietKeepsInv(w: World, t: Tid, m: Move)
    requires Inv(w) && m.does.Nothing? && Justified(w, t, m)
    ensures Inv(Take(w, t, m))
  {
    var w' := Take(w, t, m);
    NamesKept(w, w');
    forall o | o in w'.threads ensures ThreadOk(w', o) {
      if o != t {
        ThreadKept(w, w', o);
      } else {
        SameMatches(w, w');
        assert t in w.threads ==> ThreadOk(w, t);
      }
    }
    forall key | key in w'.flights ensures FlightOk(w', key) {
      assert FlightOk(w, key);
    }
  }

  lemma FlyKeepsInv(w: World, t: Tid, m: Move)
    requires Inv(w) && m.does.Fly? && Justified(w, t, m)
    ensures Inv(Take(w, t, m))
  {
    var w' := Take(w, t, m);
    NamesKept(w, w');
    forall o | o in w'.threads ensures ThreadOk(w', o) {
      if o != t { ThreadKept(w, w', o); }
    }
    forall key | key in w'.flights ensures FlightOk(w', key) {
      if key in w.flights { assert FlightOk(w, key); }
    }
  }

  /** What a leader does for its own key leaves the threads of others alone. */
  lemma OtherThreadKept(w: World, w': World, t: Tid, r: Req, o: Tid)
    requires t in w.threads && Leads(w.threads[t]) && w.threads[t].req == r && ThreadOk(w, t)
    requires o != t && o in w.threads && o in w'.threads && w'.threads[o] == w.threads[o] && ThreadOk(w, o)
    requires w'.flights == w.flights
    requires w'.cache == w.cache || (r !in w.cache && r in w'.cache && w'.cache == w.cache[r := w'.cache[r]])
    requires forall x: Req :: x != r ==> Matches(w', x) == Matches(w, x)
    ensures ThreadOk(w', o)
  {
    if Leads(w.threads[o]) && w.threads[o].req == r { OneLeader(w, t, o); }
  }

  /** A step by leader `t` of `r` that may add a match to an empty name and fill an empty
      cache slot keeps everyone else's ground. */
  lemma LeaderKeepsInv(w: World, w': World, t: Tid, r: Req)
    requires Inv(w) && t in w.threads && Leads(w.threads[t]) && w.threads[t].req == r
    requires w'.flights == w.flights && w'.returned == w.returned
    requires t in w'.threads && w'.threads == w.threads[t := w'.threads[t]]
    requires (w'.threads[t].Landing? || w'.threads[t].Putting?) && w'.threads[t].req == r
    requires w'.threads[t].Putting? ==> r !in w'.cache && Names(w', r, w'.threads[t].id)
    requires w'.cache == w.cache || (r !in w.cache && r in w'.cache && w'.cache == w.cache[r := w'.cache[r]])
    requires w'.threads[t].Landing? && w'.threads[t].outcome.Some? ==>
               r in w'.cache && w'.cache[r] == w'.threads[t].outcome.value
    requires forall x: Req :: x != r ==> Matches(w', x) == Matches(w, x)
    requires Matches(w', r) == Matches(w, r) || Matches(w, r) == {}
    requires r in w'.cache ==> Names(w', r, w'.cache[r])
    requires forall key :: key in w'.puts ==> key in w'.cache && w'.puts[key] == 1
    requires forall id :: id in w'.server ==> id > 0
    ensures Inv(w')
  {
    assert ThreadOk(w, t);
    forall o | o in w'.threads ensures ThreadOk(w', o) {
      if o != t {
        assert ThreadOk(w, o);
        OtherThreadKept(w, w', t, r, o);
      }
    }
    forall key | key in w'.flights ensures FlightOk(w', key) {
      assert FlightOk(w, key);
    }
    forall x: Req | x in w'.cache ensures Names(w', x, w'.cache[x]) {
      if x != r {
        assert Names(w, x, w.cache[x]);
      }
    }
    forall x: Req, id | (x, id) in w'.returned ensures Names(w', x, id) {
      assert Names(w, x, id);
    }
  }

  lemma PutKeepsInv(w: World, t: Tid, m: Move)
    requires Inv(w) && m.does.Put? && Justified(w, t, m)
    ensures Inv(Take(w, t, m))
  {
    var d, w' := m.does, Take(w, t, m);
    assert ThreadOk(w, t);
    SameMatches(w, w');
    assert Names(w', d.req, d.id);
    assert d.req !in w.puts;
    LeaderKeepsInv(w, w', t, d.req);
  }

  lemma MakeKeepsInv(w: World, t: Tid, m: Move)
    requires Inv(w) && m.does.Make? && Justified(w, t, m)
    ensures Inv(Take(w, t, m))
  {
    var d, w' := m.does, Take(w, t, m);
    assert ThreadOk(w, t);
    OneMoreMatch(w, w', d.req, d.id);
    assert d.req !in w.puts;
    LeaderKeepsInv(w, w', t, d.req);
  }

  lemma OneMoreMatch(w: World, w': World, r: Req, id: int)
    requires w'.server == w.server[id := r] && id !in w.server
    ensures Matches(w', r) == Matches(w, r) + {id}
    ensures forall x :: x != r ==> Matches(w', x) == Matches(w, x)
  {
  }

  /** The flight's outcome is as good for a waiter as for its leader. */
  lemma DeliveredIsOk(w: World, t: Tid, m: Move, o: Tid)
    requires Inv(w) && m.does.Deliver? && Justified(w, t, m) && o in Take(w, t, m).threads
    ensures ThreadOk(Take(w, t, m), o)
  {
    var w' := Take(w, t, m);
    assert ThreadOk(w, t) && ThreadOk(w, o);
    if o != t && w'.threads[o] == w.threads[o] {
      if Leads(w.threads[o]) && w.threads[o].req == w.threads[t].req { OneLeader(w, t, o); }
      ThreadKept(w, w', o);
    }
  }

  lemma DeliverKeepsInv(w: World, t: Tid, m: Move)
    requires Inv(w) && m.does.Deliver? && Justified(w, t, m)
    ensures Inv(Take(w, t, m))
  {
    var w' := Take(w, t, m);
    assert ThreadOk(w, t);
    NamesKept(w, w');
    forall o | o in w'.threads ensures ThreadOk(w', o) {
      DeliveredIsOk(w, t, m, o);
    }
    forall key | key in w'.flights ensures FlightOk(w', key) {
      assert FlightOk(w, key);
    }
  }

  lemma StepKeepsInv(w: World, e: Event)
    requires Inv(w)
    ensures Inv(Step(w, e))
  {
    match e
    case Restart =>
      var w' := Step(w, e);
      assert forall x :: Matches(w', x) == Matches(w, x);
      forall x: Req, id | (x, id) in w'.returned ensures Names(w', x, id) {
        assert Names(w, x, id);
      }
    case Act(t, a) =>
      if MoveOf(w, t, a).Some? {
        var m := MoveOf(w, t, a).value;
        MoveIsJustified(w, t, a);
        match m.does {
          case Nothing => QuietKeepsInv(w, t, m);
          case Fly(_) => FlyKeepsInv(w, t, m);
          case Deliver(_, _) => DeliverKeepsInv(w, t, m);
          case Put(_, _) => PutKeepsInv(w, t, m);
          case Make(_, _) => MakeKeepsInv(w, t, m);
        }
      }
  }

  lemma {:induction false} RunKeepsInv(w: World, es: seq<Event>)
    requires Inv(w)
    ensures Inv(Run(w, es))
  {
    if es != [] {
      RunKeepsInv(w, es[..|es| - 1]);
      StepKeepsInv(Run(w, es[..|es| - 1]), es[|es| - 1]);
    }
  }

  /** No process has run yet; the server may hold anything, duplicates included. */
  ghost predicate Fresh(w: World) {
    && w.cache == map[] && w.flights == map[] && w.threads == map[] && w.puts == map[] && w.returned == {}
    && (forall id :: id in w.server ==> id > 0)
  }

  // ---- Main results ---------------------------------------------------------------------------

  /** At most one caller is past the singleflight gate for an entity, under any
      interleaving, and within one process each key is put in the cache at most once. */
  lemma OneFlightOnePut(w: World, es: seq<Event>, t: Tid, o: Tid)
    requires Fresh(w)
    ensures var end := Run(w, es);
            && t in end.threads && o in end.threads && Leads(end.threads[t]) && Leads(end.threads[o])
            && end.threads[t].req == end.threads[o].req
            ==> t == o
    ensures forall key :: key in Run(w, es).puts ==> Run(w, es).puts[key] == 1
  {
    RunKeepsInv(w, es);
    var end := Run(w, es);
    if t in end.threads && o in end.threads && Leads(end.threads[t]) && Leads(end.threads[o])
       && end.threads[t].req == end.threads[o].req {
      OneLeader(end, t, o);
    }
  }

  lemma TakeGrowsMatches(w: World, t: Tid, m: Move, r: Req)
    requires Inv(w) && Justified(w, t, m)
    ensures var w' := Take(w, t, m);
            Matches(w', r) == Matches(w, r) || (Matches(w, r) == {} && |Matches(w', r)| == 1)
  {
    var d := m.does;
    if d.Make? {
      assert ThreadOk(w, t);
      OneMoreMatch(w, Take(w, t, m), d.req, d.id);
    } else {
      SameMatches(w, Take(w, t, m));
    }
  }

  lemma StepGrowsMatches(w: World, e: Event, r: Req)
    requires Inv(w)
    ensures var w' := Step(w, e);
            Matches(w', r) == Matches(w, r) || (Matches(w, r) == {} && |Matches(w', r)| == 1)
  {
    if e.Act? && MoveOf(w, e.t, e.a).Some? {
      MoveIsJustified(w, e.t, e.a);
      TakeGrowsMatches(w, e.t, MoveOf(w, e.t, e.a).value, r);
    } else {
      SameMatches(w, Step(w, e));
    }
  }

  /** Upsert safety: a name the server already had keeps exactly its matches, and a name it
      did not have never gets two — through lost replies, retries and restarts. */
  lemma {:induction false} NeverTwoOfAName(w: World, es: seq<Event>, r: Req)
    requires Fresh(w)
    ensures Matches(w, r) != {} ==> Matches(Run(w, es), r) == Matches(w, r)
    ensures Matches(w, r) == {} ==> |Matches(Run(w, es), r)| <= 1
  {
    if es != [] {
      var n := |es| - 1;
      NeverTwoOfAName(w, es[..n], r);
      RunKeepsInv(w, es[..n]);
      StepGrowsMatches(Run(w, es[..n]), es[n], r);
    }
  }

  /** All successful callers, across restarts too, get the same id — the lowest match —
      as long as the server started with no more duplicates than one answer can show. */
  lemma AllCallersAgree(w: World, es: seq<Event>, r: Req, id1: int, id2: int)
    requires Fresh(w) && |Matches(w, r)| <= FIND_TOP
    requires (r, id1) in Run(w, es).returned && (r, id2) in Run(w, es).returned
    ensures id1 == id2 && id1 in Matches(Run(w, es), r)
    ensures forall x :: x in Matches(Run(w, es), r) ==> id1 <= x
  {
    RunKeepsInv(w, es);
    NeverTwoOfAName(w, es, r);
    assert Names(Run(w, es), r, id1) && Names(Run(w, es), r, id2);
  }

  /** Within one process they agree whatever the server holds: everyone returns what is cached. */
  lemma CallersOfOneProcessAgree(w: World, es: seq<Event>, t: Tid, o: Tid)
    requires Fresh(w)
    requires var end := Run(w, es);
             && t in end.threads && o in end.threads && end.threads[t].Done? && end.threads[o].Done?
             && end.threads[t].req == end.threads[o].req
             && end.threads[t].outcome.Some? && end.threads[o].outcome.Some?
    ensures Run(w, es).threads[t].outcome == Run(w, es).threads[o].outcome
  {
    RunKeepsInv(w, es);
    assert ThreadOk(Run(w, es), t) && ThreadOk(Run(w, es), o);
  }

  // ---- More duplicates than one answer shows ----------------------------------------------------

  lemma {:induction false} RunAppend(w: World, xs: seq<Event>, ys: seq<Event>)
    ensures Run(w, xs + ys) == Run(Run(w, xs), ys)
  {
    if ys == [] {
      assert xs + ys == xs;
    } else {
      assert (xs + ys)[..|xs + ys| - 1] == xs + ys[..|ys| - 1];
      RunAppend(w, xs, ys[..|ys| - 1]);
    }
  }

  predicate NoProcess(w: World) {
    w.cache == map[] && w.flights == map[] && w.threads == map[] && w.puts == map[]
  }

  /** A process that resolves one name, gets `shown`, and stops. */
  function Visit(r: Req, shown: seq<int>): seq<Event> {
    [Act(0, Called(r)), Act(0, Entered), Act(0, Rechecked), Act(0, Found(shown)), Act(0, CachePut), Act(0, Landed),
     Restart]
  }

  lemma RunSeven(w: World, es: seq<Event>)
    requires |es| == 7
    ensures Run(w, es) ==
            Step(Step(Step(Step(Step(Step(Step(w, es[0]), es[1]), es[2]), es[3]), es[4]), es[5]), es[6])
  {
    assert es[..6][..5] == es[..5] && es[..5][..4] == es[..4] && es[..4][..3] == es[..3];
    assert es[..3][..2] == es[..2] && es[..2][..1] == es[..1] && es[..1][..0] == [];
    assert Run(w, es[..1]) == Step(w, es[0]);
    assert Run(w, es[..2]) == Step(Run(w, es[..1]), es[1]);
    assert Run(w, es[..3]) == Step(Run(w, es[..2]), es[2]);
    assert Run(w, es[..4]) == Step(Run(w, es[..3]), es[3]);
    assert Run(w, es[..5]) == Step(Run(w, es[..4]), es[4]);
    assert Run(w, es[..6]) == Step(Run(w, es[..5]), es[5]);
  }

  /** Up to the lookup: the caller leads the only flight and has found nothing cached. */
  lemma VisitReachesFind(w: World, r: Req)
    requires NoProcess(w)
    ensures var w3 := Step(Step(Step(w, Act(0, Called(r))), Act(0, Entered)), Act(0, Rechecked));
            && w3.threads == map[0 := Finding(r)] && w3.flights == map[r := 0]
            && w3.cache == map[] && w3.puts == map[]
            && w3.server == w.server && w3.returned == w.returned
  {
  }

  lemma VisitFinds(w: World, r: Req, shown: seq<int>)
    requires w.threads == map[0 := Finding(r)] && w.flights == map[r := 0] && w.cache == map[] && w.puts == map[]
    requires Askable(r) && Shows(Matches(w, r), shown) && shown != []
    ensures Step(w, Act(0, Found(shown))) == w.(threads := map[0 := Putting(r, Lowest(shown))])
  {
  }

  lemma VisitLands(w: World, r: Req, low: int)
    requires w.threads == map[0 := Putting(r, low)] && w.flights == map[r := 0]
    ensures var end := Step(Step(w, Act(0, CachePut)), Act(0, Landed));
            end.returned == w.returned + {(r, low)} && end.server == w.server
  {
    var w5 := Step(w, Act(0, CachePut));
    assert MoveOf(w, 0, CachePut) == Some(Move(Landing(r, Some(low)), Put(r, low)));
    assert w5.threads == map[0 := Landing(r, Some(low))] && w5.returned == w.returned;
    assert MoveOf(w5, 0, Landed) == Some(Move(Done(r, Some(low)), Deliver(r, Some(low))));
  }

  lemma VisitReturns(w: World, r: Req, shown: seq<int>)
    requires NoProcess(w) && Askable(r) && Shows(Matches(w, r), shown) && shown != []
    ensures Run(w, Visit(r, shown)) == w.(returned := w.returned + {(r, Lowest(shown))})
  {
    RunSeven(w, Visit(r, shown));
    VisitReachesFind(w, r);
    var w3 := Step(Step(Step(w, Act(0, Called(r))), Act(0, Entered)), Act(0, Rechecked));
    SameMatches(w, w3);
    VisitFinds(w3, r, shown);
    VisitLands(Step(w3, Act(0, Found(shown))), r, Lowest(shown));
  }

  /** `n` distinct elements of a set, as a list. */
  lemma Enumerate(ids: set<int>, n: nat) returns (list: seq<int>)
    requires n <= |ids|
    ensures |list| == n && Distinct(list) && forall i :: 0 <= i < n ==> list[i] in ids
  {
    if n == 0 {
      list := [];
    } else {
      var x := Pick(ids);
      var rest := Enumerate(ids - {x}, n - 1);
      list := rest + [x];
    }
  }

  /** With eleven or more duplicates, some run with one restart returns two different ids:
      an answer of ten, in no promised order, need not contain the lowest. */
  lemma TooManyDuplicatesDisagree(w: World, r: Req) returns (es: seq<Event>, id1: int, id2: int)
    requires Fresh(w) && Askable(r) && |Matches(w, r)| > FIND_TOP
    ensures (r, id1) in Run(w, es).returned && (r, id2) in Run(w, es).returned && id1 != id2
  {
    var matches := Matches(w, r);
    var shown1 := Enumerate(matches, FIND_TOP);
    id1 := Lowest(shown1);
    var shown2 := Enumerate(matches - {id1}, FIND_TOP);
    id2 := Lowest(shown2);
    var w1 := w.(returned := w.returned + {(r, id1)});
    assert Matches(w1, r) == matches;
    VisitReturns(w, r, shown1);
    VisitReturns(w1, r, shown2);
    es := Visit(r, shown1) + Visit(r, shown2);
    RunAppend(w, Visit(r, shown1), Visit(r, shown2));
  }

  /** Every run hands out one single id for an askable name exactly when the server starts
      with at most ten entities of that name. */
  lemma AllRunsAgreeIffFewDuplicates(w: World, r: Req)
    requires Fresh(w) && Askable(r)
    ensures |Matches(w, r)| <= FIND_TOP <==>
            forall es, id1, id2 ::
              (r, id1) in Run(w, es).returned && (r, id2) in Run(w, es).returned ==> id1 == id2
  {
    if |Matches(w, r)| <= FIND_TOP {
      forall es, id1, id2 | (r, id1) in Run(w, es).returned && (r, id2) in Run(w, es).returned
        ensures id1 == id2
      {
        AllCallersAgree(w, es, r, id1, id2);
      }
    } else {
      var es, id1, id2 := TooManyDuplicatesDisagree(w, r);
    }
  }
}
