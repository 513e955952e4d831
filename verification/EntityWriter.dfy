/** Writer.GetOrCreate and MemEntityCache as the source has them: a string-keyed map and a
    call that may be overtaken by other callers before each of its effects. Every call is
    proved to be a piece of a run of Upsert. */
module EntityWriter {
  import opened Canonical
  import opened Upsert
  import F = Flights

  /** The string-keyed cache holds exactly the entries of the abstract one. */
  ghost predicate Agrees(m: map<string, int>, cache: map<Req, int>) {
    && (forall r :: r in cache ==> r.entity in ENTITIES)
    && (forall r: Req :: r.entity in ENTITIES ==>
          (Key(r) in m <==> r in cache) && (r in cache ==> m[Key(r)] == cache[r]))
  }

  class MemEntityCache {
    var m: map<string, int>

    constructor ()
      ensures m == map[]
    {
      m := map[];
    }

    method Get(r: Req) returns (id: Option<int>)
      ensures id == if Key(r) in m then Some(m[Key(r)]) else None
    {
      if Key(r) in m {
        id := Some(m[Key(r)]);
      } else {
        id := None;
      }
    }

    method Put(r: Req, id: int)
      modifies this
      ensures m == old(m)[Key(r) := id]
    {
      m := m[Key(r) := id];
    }
  }

  /** Put touches no other entity's entry: keys of different entities differ. */
  lemma PutAgrees(m: map<string, int>, cache: map<Req, int>, r: Req, id: int)
    requires Agrees(m, cache) && r.entity in ENTITIES
    ensures Agrees(m[Key(r) := id], cache[r := id])
  {
    forall x: Req | x.entity in ENTITIES && x != r ensures Key(x) != Key(r) {
      KeysDiffer(x, r);
    }
  }

  lemma KeysDiffer(a: Req, b: Req)
    requires a.entity in ENTITIES && b.entity in ENTITIES && a != b
    ensures Key(a) != Key(b)
  {
    EntitiesAreBarless(a.entity);
    EntitiesAreBarless(b.entity);
    if Key(a) == Key(b) {
      KeyIsInjective(a, b);
    }
  }

  /** The string-keyed form of an abstract cache. */
  function Strings(cache: map<Req, int>): (m: map<string, int>)
    requires forall r :: r in cache ==> r.entity in ENTITIES
    ensures Agrees(m, cache)
  {
    StringsInjective(cache);
    map r | r in cache :: Key(r) := cache[r]
  }

  lemma StringsInjective(cache: map<Req, int>)
    requires forall r :: r in cache ==> r.entity in ENTITIES
    ensures forall a: Req, b: Req :: a in cache && b.entity in ENTITIES && Key(a) == Key(b) ==> a == b
  {
    forall a: Req, b: Req | a in cache && b.entity in ENTITIES && Key(a) == Key(b) ensures a == b {
      if a != b { KeysDiffer(a, b); }
    }
  }

  /** Callers only ask for the known collections. */
  predicate ProperEvent(e: Event) {
    e.Act? && e.a.Called? ==> e.a.req.entity in ENTITIES
  }

  predicate Proper(w: World) {
    && (forall t :: t in w.threads ==> w.threads[t].req.entity in ENTITIES)
    && (forall r :: r in w.cache ==> r.entity in ENTITIES)
  }

  lemma StepStaysProper(w: World, e: Event)
    requires Inv(w) && Proper(w) && ProperEvent(e)
    ensures Proper(Step(w, e))
  {
    if e.Act? && MoveOf(w, e.t, e.a).Some? {
      MoveIsJustified(w, e.t, e.a);
      var m := MoveOf(w, e.t, e.a).value;
      NextReq(w, e.t, e.a);
      TakeStaysProper(w, e.t, m);
    }
  }

  lemma NextReq(w: World, t: Tid, a: Answer)
    requires MoveOf(w, t, a).Some?
    ensures MoveOf(w, t, a).value.next.req == if t in w.threads then w.threads[t].req else a.req
    ensures t !in w.threads ==> a.Called?
  {
  }

  lemma TakeStaysProper(w: World, t: Tid, m: Move)
    requires Proper(w) && Justified(w, t, m) && m.next.req.entity in ENTITIES
    ensures Proper(Take(w, t, m))
  {
  }

  /** An event of some other caller. */
  predicate Foreign(t: Tid, e: Event) {
    ProperEvent(e) && e.Act? && e.t != t
  }

  /** Where the others may have left caller `t`: where it was, or served by the flight. */
  predicate LeftAlone(w: World, w': World, t: Tid) {
    if t !in w.threads then t !in w'.threads
    else
      && t in w'.threads
      && (|| w'.threads[t] == w.threads[t]
          || (w.threads[t].Waiting? && w'.threads[t].Done? && w'.threads[t].req == w.threads[t].req))
  }

  lemma ForeignStep(w: World, e: Event, t: Tid)
    requires Foreign(t, e) && Inv(w)
    ensures LeftAlone(w, Step(w, e), t)
  {
    if MoveOf(w, e.t, e.a).Some? {
      TakeLeavesAlone(w, e.t, MoveOf(w, e.t, e.a).value, t);
    }
  }

  lemma TakeLeavesAlone(w: World, o: Tid, m: Move, t: Tid)
    requires o != t
    ensures LeftAlone(w, Take(w, o, m), t)
  {
  }

  lemma {:induction false} ForeignRun(w: World, es: seq<Event>, t: Tid)
    requires Inv(w) && Proper(w)
    requires forall i :: 0 <= i < |es| ==> Foreign(t, es[i])
    ensures Inv(Run(w, es)) && Proper(Run(w, es)) && LeftAlone(w, Run(w, es), t)
  {
    RunKeepsInv(w, es);
    if es != [] {
      var n := |es| - 1;
      ForeignRun(w, es[..n], t);
      ForeignStep(Run(w, es[..n]), es[n], t);
      StepStaysProper(Run(w, es[..n]), es[n]);
    }
  }

  lemma PutStep(w: World, t: Tid, r: Req, id: int)
    requires Inv(w) && Proper(w) && t in w.threads && w.threads[t] == Putting(r, id)
    ensures var w' := Step(w, Act(t, CachePut));
            && w'.cache == w.cache[r := id] && Proper(w') && r.entity in ENTITIES
            && t in w'.threads && w'.threads[t] == Landing(r, Some(id))
  {
    StepStaysProper(w, Act(t, CachePut));
  }

  /** An effect other than Put leaves the cache as it is and its caller where MoveOf says. */
  lemma DoStep(w: World, t: Tid, a: Answer)
    requires Inv(w) && Proper(w) && ProperEvent(Act(t, a))
    requires MoveOf(w, t, a).Some? && !MoveOf(w, t, a).value.does.Put?
    ensures var w' := Step(w, Act(t, a));
            && w'.cache == w.cache && Proper(w')
            && t in w'.threads && w'.threads[t] == MoveOf(w, t, a).value.next
  {
    StepStaysProper(w, Act(t, a));
  }

  /** Where the answer to a POST leads the caller. */
  lemma PostMoves(w: World, t: Tid, r: Req, a: Answer)
    requires t in w.threads && w.threads[t] == Upsert.Posting(r)
    requires a.PostConflict? || a.PostRefused? || a.PostLost? || (a.PostCreated? && a.id !in w.server && a.id > 0)
    ensures var m := MoveOf(w, t, a);
            && m.Some? && !m.value.does.Put?
            && m.value.next ==
               match a
               case PostCreated(id) => Putting(r, id)
               case PostConflict => Refetching(r)
               case _ => Landing(r, None)
  {
  }

  /** Where the answer to the refetch leads it. */
  lemma RefetchMoves(w: World, t: Tid, r: Req, a: Answer)
    requires t in w.threads && w.threads[t] == Refetching(r)
    requires a.FindFailed? || (a.Found? && Shows(Matches(w, r), a.shown))
    ensures var m := MoveOf(w, t, a);
            && m.Some? && !m.value.does.Put?
            && m.value.next == if a.Found? && |a.shown| == 1 then Putting(r, a.shown[0]) else Landing(r, None)
  {
  }

  lemma RunOneMore(first: World, trace: seq<Event>, e: Event)
    ensures Run(first, trace + [e]) == Step(Run(first, trace), e)
  {
    assert (trace + [e])[..|trace + [e]| - 1] == trace;
  }

  datatype FindResult = NotFound | One(id: int) | Duplicate(lowest: int) | FindError
  datatype PostResult = PostedAs(id: int) | Conflicted | PostError

  /** What GetOrCreate returns; Blocked is a caller still waiting for someone's flight. */
  datatype Outcome = Id(id: int) | Failed | Blocked

  class Writer {
    const cache: MemEntityCache
    var w: World
    ghost var first: World
    ghost var trace: seq<Event>

    ghost predicate Valid()
      reads this, cache
    {
      && Fresh(first) && w == Run(first, trace)
      && Proper(w)
      && Agrees(cache.m, w.cache)
    }

    twostate predicate Extended()
      reads this, cache
    {
      Valid() && first == old(first) && old(trace) <= trace
    }

    predicate At(t: Tid, th: Thread)
      reads this
    {
      t in w.threads && w.threads[t] == th
    }

    constructor (server: map<int, Req>)
      requires forall id :: id in server ==> id > 0
      ensures Valid() && trace == [] && w.server == server && w.threads == map[]
    {
      cache := new MemEntityCache();
      w := World(map[], map[], map[], server, map[], {});
      first := World(map[], map[], map[], server, map[], {});
      trace := [];
    }

    /** The other callers run, for as long as they like. */
    method Others(t: Tid)
      requires Valid()
      modifies this, cache
      ensures Extended() && LeftAlone(old(w), w, t)
    {
      var es: seq<Event> := *;
      if forall i | 0 <= i < |es| :: Foreign(t, es[i]) {
        RunKeepsInv(first, trace);
        ForeignRun(w, es, t);
        RunAppend(first, trace, es);
        w := Run(w, es);
        cache.m := Strings(w.cache);
        trace := trace + es;
      }
    }

    /** One effect of caller `t` that leaves the cache as it is. */
    method Do(t: Tid, a: Answer)
      requires Valid() && ProperEvent(Act(t, a))
      requires MoveOf(w, t, a).Some? && !MoveOf(w, t, a).value.does.Put?
      modifies this
      ensures Extended() && At(t, MoveOf(old(w), t, a).value.next)
      ensures w == Step(old(w), Act(t, a)) && trace == old(trace) + [Act(t, a)]
    {
      RunKeepsInv(first, trace);
      DoStep(w, t, a);
      RunOneMore(first, trace, Act(t, a));
      w := Step(w, Act(t, a));
      trace := trace + [Act(t, a)];
    }

    /** Cache.Put by the leader of the flight. */
    method PutInCache(t: Tid, r: Req, id: int)
      requires Valid() && At(t, Putting(r, id))
      modifies this, cache
      ensures Extended() && At(t, Landing(r, Some(id)))
    {
      RunKeepsInv(first, trace);
      PutStep(w, t, r, id);
      PutAgrees(cache.m, w.cache, r, id);
      RunOneMore(first, trace, Act(t, CachePut));
      cache.Put(r, id);
      w := Step(w, Act(t, CachePut));
      trace := trace + [Act(t, CachePut)];
    }

    /** Time passes between learning the id and caching it. */
    method PutLater(t: Tid, r: Req, id: int)
      requires Valid() && At(t, Putting(r, id))
      modifies this, cache
      ensures Extended() && At(t, Landing(r, Some(id)))
    {
      Others(t);
      PutInCache(t, r, id);
    }

    /** The name-filter lookup before a create. */
    method FindByName(t: Tid, r: Req) returns (found: FindResult)
      requires Valid() && At(t, Finding(r))
      modifies this, cache
      ensures Extended()
      ensures found.FindError? ==> At(t, Landing(r, None))
      ensures r.name == "" || |r.name| > 255 ==> found.FindError?
      ensures found.NotFound? ==> At(t, Upsert.Posting(r))
      ensures found.One? ==> At(t, Putting(r, found.id))
      ensures found.Duplicate? ==> At(t, Putting(r, found.lowest))
    {
      Others(t);
      var shown: seq<int> := *;
      if !Askable(r) || !Shows(Matches(w, r), shown) {
        Do(t, FindFailed);
        return FindError;
      }
      ghost var before := w;
      Do(t, Found(shown));
      if shown == [] {
        return NotFound;
      }
      var low := FindLowest(shown);
      if |shown| == 1 {
        return One(shown[0]);
      }
      return Duplicate(low);
    }

    /** The refetch after a 409. */
    method FindAgain(t: Tid, r: Req) returns (found: FindResult)
      requires Valid() && At(t, Refetching(r))
      modifies this, cache
      ensures Extended()
      ensures found.One? ==> At(t, Putting(r, found.id))
      ensures !found.One? ==> At(t, Landing(r, None))
    {
      Others(t);
      var shown: seq<int> := *;
      var answered := Shows(Matches(w, r), shown);
      var a := if answered then Found(shown) else FindFailed;
      RefetchMoves(w, t, r, a);
      Do(t, a);
      if !answered {
        return FindError;
      }
      if shown == [] {
        return NotFound;
      }
      if |shown| == 1 {
        return One(shown[0]);
      }
      var low := FindLowest(shown);
      return Duplicate(low);
    }

    method Post(t: Tid, r: Req) returns (post: PostResult)
      requires Valid() && At(t, Upsert.Posting(r))
      modifies this, cache
      ensures Extended()
      ensures post.PostedAs? ==> At(t, Putting(r, post.id))
      ensures post.Conflicted? ==> At(t, Refetching(r))
      ensures post.PostError? ==> At(t, Landing(r, None))
    {
      Others(t);
      var a: Answer := *;
      var created := a.PostCreated? && a.id !in w.server && a.id > 0;
      if !created && !a.PostConflict? && !a.PostLost? {
        a := PostRefused;
      }
      post := if created then PostedAs(a.id) else if a.PostConflict? then Conflicted else PostError;
      PostMoves(w, t, r, a);
      Do(t, a);
    }

    /** Lookup, then create; run only by the leader of the key's flight. */
    method ResolveUncached(t: Tid, r: Req) returns (id: Option<int>)
      requires Valid() && At(t, Finding(r))
      modifies this, cache
      ensures Extended() && At(t, Landing(r, id))
    {
      var found := FindByName(t, r);
      match found {
        case FindError => id := None;
        case One(n) =>
          PutLater(t, r, n);
          id := Some(n);
        case Duplicate(n) =>
          PutLater(t, r, n);
          id := Some(n);
        case NotFound =>
          id := Create(t, r);
      }
    }

    /** The create and, on a 409, the refetch. */
    method Create(t: Tid, r: Req) returns (id: Option<int>)
      requires Valid() && At(t, Upsert.Posting(r))
      modifies this, cache
      ensures Extended() && At(t, Landing(r, id))
    {
      var post := Post(t, r);
      match post {
        case PostError => id := None;
        case PostedAs(n) =>
          PutLater(t, r, n);
          id := Some(n);
        case Conflicted =>
          id := Refetch(t, r);
      }
    }

    method Refetch(t: Tid, r: Req) returns (id: Option<int>)
      requires Valid() && At(t, Refetching(r))
      modifies this, cache
      ensures Extended() && At(t, Landing(r, id))
    {
      var again := FindAgain(t, r);
      id := None;
      if again.One? {
        PutLater(t, r, again.id);
        id := Some(again.id);
      }
    }

    /** The second look at the cache, from inside the flight. */
    method Recheck(t: Tid, r: Req) returns (id: Option<int>)
      requires Valid() && At(t, Rechecking(r))
      modifies this, cache
      ensures Extended() && At(t, if id.Some? then Landing(r, id) else Finding(r))
    {
      Others(t);
      id := cache.Get(r);
      assert w.threads[t].req == r;
      Do(t, Rechecked);
    }

    /** The flight ends and serves its waiters. */
    method Land(t: Tid, r: Req, id: Option<int>)
      requires Valid() && At(t, Landing(r, id))
      modifies this, cache
      ensures Extended() && At(t, Done(r, id))
    {
      Others(t);
      Do(t, Landed);
    }

    /** The body of the flight, run by its leader. */
    method Fly(t: Tid, r: Req) returns (id: Option<int>)
      requires Valid() && At(t, Rechecking(r))
      modifies this, cache
      ensures Extended() && At(t, Done(r, id))
    {
      id := Recheck(t, r);
      if id.None? {
        id := ResolveUncached(t, r);
      }
      Land(t, r, id);
    }

    /** A joiner blocks until the leader serves it: None is a caller left waiting. */
    method Await(t: Tid, r: Req) returns (id: Option<Option<int>>)
      requires Valid() && At(t, Waiting(r))
      modifies this, cache
      ensures Extended()
      ensures At(t, if id.Some? then Done(r, id.value) else Waiting(r))
    {
      Others(t);
      match w.threads[t] {
        case Done(_, outcome) => id := Some(outcome);
        case _ => id := None;
      }
    }

    /** At the flight group: a caller leads if and only if its key had no flight when it
        entered; otherwise there is one to wait for. */
    method Enter(t: Tid, r: Req) returns (leads: bool)
      requires Valid() && At(t, Missed(r))
      modifies this, cache
      ensures Extended()
      ensures At(t, if leads then Rechecking(r) else Waiting(r)) && r in w.flights
      ensures |trace| > 0 && trace[|trace| - 1] == Act(t, Entered)
      ensures leads <==> r !in Run(first, trace[..|trace| - 1]).flights
    {
      Others(t);
      F.EntersIff(w, t, r);
      ghost var so := trace;
      Do(t, Entered);
      assert trace[..|trace| - 1] == so;
      leads := !w.threads[t].Waiting?;
    }

    /** Joins the flight of the key, or leads it. */
    method JoinOrFly(t: Tid, r: Req) returns (id: Option<Option<int>>)
      requires Valid() && At(t, Missed(r))
      modifies this, cache
      ensures Extended()
      ensures At(t, if id.Some? then Done(r, id.value) else Waiting(r))
    {
      var leads := Enter(t, r);
      if leads {
        var led := Fly(t, r);
        id := Some(led);
      } else {
        id := Await(t, r);
      }
    }

    /** Cache, then one flight per key, re-check, resolve. An id that comes back names the
        entity on the server: a match, and the lowest one if the server can show them all. */
    method GetOrCreate(t: Tid, r: Req) returns (res: Outcome)
      requires Valid() && t !in w.threads && r.entity in ENTITIES
      modifies this, cache
      ensures Extended()
      ensures res.Id? ==> At(t, Done(r, Some(res.id))) && Names(w, r, res.id)
      ensures res.Failed? ==> At(t, Done(r, None))
      ensures res.Blocked? ==> At(t, Waiting(r)) && r in w.flights
    {
      Others(t);
      var hit := cache.Get(r);
      Do(t, Called(r));
      if hit.Some? {
        DoneNames(first, trace, t);
        return Id(hit.value);
      }
      var id := JoinOrFly(t, r);
      DoneNames(first, trace, t);
      match id {
        case None =>
          F.WaiterHasALeader(first, trace, t);
          return Blocked;
        case Some(None) => return Failed;
        case Some(Some(n)) => return Id(n);
      }
    }
  }

  /** Whoever is done with an id got one that names its entity. */
  lemma DoneNames(first: World, trace: seq<Event>, t: Tid)
    requires Fresh(first)
    ensures var end := Run(first, trace);
            t in end.threads && end.threads[t].Done? && end.threads[t].outcome.Some? ==>
              Names(end, end.threads[t].req, end.threads[t].outcome.value)
  {
    RunKeepsInv(first, trace);
    var end := Run(first, trace);
    if t in end.threads {
      assert ThreadOk(end, t);
    }
  }
}
