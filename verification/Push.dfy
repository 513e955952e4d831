/** The push endpoint (internal/api/push.go): register the batch's streams, group its
    observations, and run every group through the ingest core, in any order. */
module Push {
  import opened Canonical
  import opened Store
  import opened WritePath
  import opened CursorMeaning
  import opened Environment
  import opened Ingest
  import V = Validator

  datatype DecodedThing = DecodedThing(native: string, properties: seq<string>)

  datatype DecodedBatch = DecodedBatch(things: seq<DecodedThing>, observations: seq<Observation>)

  datatype Reason = UnknownDatastream | Invalid(reason: V.Reason)

  datatype RejectedItem = RejectedItem(rawId: string, reason: Reason)

  datatype Response = Response(accepted: nat, skippedIdempotent: nat, rejected: seq<RejectedItem>)

  const ACCEPTED := 202
  const UNAVAILABLE := 503

  function StreamKey(native: string, property: string): string {
    native + "|" + property
  }

  function KeyOf(o: Observation): string {
    StreamKey(o.thing, o.property)
  }

  /** Two Things can share a stream key exactly when one's id followed by the separator
      starts the other's. */
  lemma KeysCollideIff(a: string, b: string)
    ensures (exists p, q :: StreamKey(a, p) == StreamKey(b, q)) <==> a == b || a + "|" <= b || b + "|" <= a
  {
    if a == b {
      assert StreamKey(a, "") == StreamKey(b, "");
    } else if a + "|" <= b {
      LongerId(a, b);
    } else if b + "|" <= a {
      LongerId(b, a);
    } else if p, q :| StreamKey(a, p) == StreamKey(b, q) {
      NoCollision(a, p, b, q);
    }
  }

  /** A collision: two different things and properties under one key. */
  lemma KeysCollide()
    ensures StreamKey("a", "b|c") == StreamKey("a|b", "c") == "a|b|c"
  {
    assert "b|c" == "b" + "|c";
  }

  lemma LongerId(a: string, b: string)
    requires a + "|" <= b
    ensures exists p, q :: StreamKey(a, p) == StreamKey(b, q)
    ensures exists p, q :: StreamKey(b, p) == StreamKey(a, q)
  {
    var p := b[|a| + 1..] + "|";
    assert b == a + "|" + b[|a| + 1..];
    assert StreamKey(a, p) == StreamKey(b, "");
    assert StreamKey(b, "") == StreamKey(a, p);
  }

  lemma NoCollision(a: string, p: string, b: string, q: string)
    requires StreamKey(a, p) == StreamKey(b, q) && a != b
    ensures a + "|" <= b || b + "|" <= a
  {
    var k := StreamKey(a, p);
    assert k[..|a|] == a && k[|a|] == '|';
    assert k[..|b|] == b && k[|b|] == '|';
    if |a| < |b| {
      assert b[..|a|] == a && b[|a|] == '|';
      assert a + "|" == b[..|a| + 1];
    } else if |b| < |a| {
      assert a[..|b|] == b && a[|b|] == '|';
      assert b + "|" == a[..|b| + 1];
    }
  }

  // ---- Grouping -----------------------------------------------------------------------

  /** The observations of one key, in the batch's order. */
  function GroupOf(obs: seq<Observation>, key: string): seq<Observation> {
    if obs == [] then []
    else
      var before := GroupOf(obs[..|obs| - 1], key);
      if KeyOf(obs[|obs| - 1]) == key then before + [obs[|obs| - 1]] else before
  }

  /** The observations that reference no registered stream. */
  function UnknownOf(obs: seq<Observation>, known: set<string>): seq<RejectedItem> {
    if obs == [] then []
    else
      var before := UnknownOf(obs[..|obs| - 1], known);
      if KeyOf(obs[|obs| - 1]) in known then before
      else before + [RejectedItem(obs[|obs| - 1].rawId, UnknownDatastream)]
  }

  /** A group has the key's observations and no others. */
  lemma {:induction false} GroupMembers(obs: seq<Observation>, key: string)
    ensures forall o :: o in GroupOf(obs, key) <==> o in obs && KeyOf(o) == key
  {
    if obs != [] {
      var n := |obs| - 1;
      GroupMembers(obs[..n], key);
      assert obs == obs[..n] + [obs[n]];
    }
  }

  /** The places of a key's observations in the batch. */
  ghost function PlacesOf(obs: seq<Observation>, key: string): seq<nat> {
    if obs == [] then []
    else
      var n := |obs| - 1;
      var before := PlacesOf(obs[..n], key);
      if KeyOf(obs[n]) == key then before + [n] else before
  }

  lemma {:induction false} PlacesAscend(obs: seq<Observation>, key: string)
    ensures V.Ascending(PlacesOf(obs, key))
    ensures forall i :: 0 <= i < |PlacesOf(obs, key)| ==> PlacesOf(obs, key)[i] < |obs|
  {
    if obs != [] {
      PlacesAscend(obs[..|obs| - 1], key);
    }
  }

  lemma {:induction false} PlaceIsOfKey(obs: seq<Observation>, key: string, p: nat)
    requires p < |obs|
    ensures p in PlacesOf(obs, key) <==> KeyOf(obs[p]) == key
  {
    var n := |obs| - 1;
    if p < n {
      PlaceIsOfKey(obs[..n], key, p);
    } else {
      PlacesAscend(obs[..n], key);
    }
  }

  lemma {:induction false} GroupIsAt(obs: seq<Observation>, key: string, i: nat)
    ensures |GroupOf(obs, key)| == |PlacesOf(obs, key)|
    ensures i < |PlacesOf(obs, key)| ==>
              PlacesOf(obs, key)[i] < |obs| && GroupOf(obs, key)[i] == obs[PlacesOf(obs, key)[i]]
  {
    if obs != [] {
      GroupIsAt(obs[..|obs| - 1], key, i);
    }
  }

  /** A group is the batch at the ascending places of exactly the key's observations. */
  lemma GroupIsOrdered(obs: seq<Observation>, key: string)
    ensures var group, at := GroupOf(obs, key), PlacesOf(obs, key);
            && |group| == |at|
            && V.Ascending(at)
            && (forall i :: 0 <= i < |at| ==> at[i] < |obs| && group[i] == obs[at[i]])
            && (forall p :: 0 <= p < |obs| ==> (p in at <==> KeyOf(obs[p]) == key))
  {
    PlacesAscend(obs, key);
    GroupIsAt(obs, key, 0);
    var at := PlacesOf(obs, key);
    forall i | 0 <= i < |at| ensures at[i] < |obs| && GroupOf(obs, key)[i] == obs[at[i]] {
      GroupIsAt(obs, key, i);
    }
    forall p | 0 <= p < |obs| ensures p in at <==> KeyOf(obs[p]) == key {
      PlaceIsOfKey(obs, key, p);
    }
  }

  method Group(obs: seq<Observation>, known: map<string, StreamId>)
    returns (grouped: map<string, seq<Observation>>, rejected: seq<RejectedItem>)
    ensures rejected == UnknownOf(obs, known.Keys)
    ensures grouped.Keys <= known.Keys
    ensures forall k :: k in grouped ==> grouped[k] == GroupOf(obs, k)
    ensures forall o :: o in obs && KeyOf(o) in known ==> KeyOf(o) in grouped
  {
    grouped, rejected := map[], [];
    for i := 0 to |obs|
      invariant rejected == UnknownOf(obs[..i], known.Keys)
      invariant grouped.Keys <= known.Keys
      invariant forall k :: k in known ==> GroupOf(obs[..i], k) == if k in grouped then grouped[k] else []
      invariant forall j :: 0 <= j < i && KeyOf(obs[j]) in known ==> KeyOf(obs[j]) in grouped
    {
      assert obs[..i + 1][..i] == obs[..i];
      var key := KeyOf(obs[i]);
      if key !in known {
        rejected := rejected + [RejectedItem(obs[i].rawId, UnknownDatastream)];
        continue;
      }
      grouped := grouped[key := (if key in grouped then grouped[key] else []) + [obs[i]]];
    }
    assert obs[..|obs|] == obs;
  }

  // ---- What a request reports -------------------------------------------------------------

  /** One group's pass through the ingest core: the horizon of its validation, and how many
      of its rows were found in the log. */
  datatype Call = Call(key: string, horizon: Time, skipped: nat)

  predicate Breaks(o: Observation, horizon: Time) {
    V.Validate(o, ZERO_TIME, horizon, 0).Some?
  }

  function ItemOf(o: Observation, horizon: Time): RejectedItem
    requires Breaks(o, horizon)
  {
    RejectedItem(o.rawId, Invalid(V.Validate(o, ZERO_TIME, horizon, 0).value))
  }

  /** How many rows of the groups that were called pass the validation of their call. */
  function PassCount(obs: seq<Observation>, horizons: map<string, Time>): nat {
    if obs == [] then 0
    else
      var o := obs[|obs| - 1];
      PassCount(obs[..|obs| - 1], horizons)
      + if KeyOf(o) in horizons && !Breaks(o, horizons[KeyOf(o)]) then 1 else 0
  }

  /** The rows of those groups that break a rule there, each with its raw id and the rule. */
  function FailItems(obs: seq<Observation>, horizons: map<string, Time>): seq<RejectedItem> {
    if obs == [] then []
    else
      var o := obs[|obs| - 1];
      var before := FailItems(obs[..|obs| - 1], horizons);
      if KeyOf(o) in horizons && Breaks(o, horizons[KeyOf(o)]) then before + [ItemOf(o, horizons[KeyOf(o)])] else before
  }

  function HorizonsOf(calls: seq<Call>): map<string, Time> {
    if calls == [] then map[]
    else HorizonsOf(calls[..|calls| - 1])[calls[|calls| - 1].key := calls[|calls| - 1].horizon]
  }

  function SkipSum(calls: seq<Call>): nat {
    if calls == [] then 0 else SkipSum(calls[..|calls| - 1]) + calls[|calls| - 1].skipped
  }

  /** The response after the calls: the rows that passed are accepted, the unknown rows and
      those that broke a rule are reported with their raw ids and reasons. */
  ghost predicate Tallied(obs: seq<Observation>, unknown: seq<RejectedItem>, resp: Response, calls: seq<Call>) {
    && resp.accepted == PassCount(obs, HorizonsOf(calls))
    && multiset(resp.rejected) == multiset(unknown) + multiset(FailItems(obs, HorizonsOf(calls)))
    && resp.skippedIdempotent == SkipSum(calls)
  }

  lemma {:induction false} NoneCalled(obs: seq<Observation>)
    ensures PassCount(obs, map[]) == 0 && FailItems(obs, map[]) == []
  {
    if obs != [] {
      NoneCalled(obs[..|obs| - 1]);
    }
  }

  /** One more group called adds the rows it keeps. */
  lemma {:induction false} PassOneMore(obs: seq<Observation>, horizons: map<string, Time>, key: string, horizon: Time)
    requires key !in horizons
    ensures PassCount(obs, horizons[key := horizon]) ==
            PassCount(obs, horizons) + |V.Kept(GroupOf(obs, key), ZERO_TIME, horizon, 0)|
  {
    if obs != [] {
      var n := |obs| - 1;
      PassOneMore(obs[..n], horizons, key, horizon);
      var before := GroupOf(obs[..n], key);
      assert (before + [obs[n]])[..|before|] == before;
    }
  }

  function Reported(rejected: seq<V.Rejection>): (items: seq<RejectedItem>)
    ensures |items| == |rejected|
    ensures forall i :: 0 <= i < |items| ==>
              items[i] == RejectedItem(rejected[i].observation.rawId, Invalid(rejected[i].reason))
  {
    seq(|rejected|, i requires 0 <= i < |rejected| =>
      RejectedItem(rejected[i].observation.rawId, Invalid(rejected[i].reason)))
  }

  lemma ReportedOneMore(rejected: seq<V.Rejection>, r: V.Rejection)
    ensures Reported(rejected + [r]) == Reported(rejected) + [RejectedItem(r.observation.rawId, Invalid(r.reason))]
  {
  }

  /** What a group's rejections report of one more row. */
  lemma GroupReportsOneMore(obs: seq<Observation>, key: string, horizon: Time)
    requires obs != []
    ensures var o, n := obs[|obs| - 1], |obs| - 1;
            var before := Reported(V.Rejected(GroupOf(obs[..n], key), ZERO_TIME, horizon, 0));
            Reported(V.Rejected(GroupOf(obs, key), ZERO_TIME, horizon, 0)) ==
            before + if KeyOf(o) == key && Breaks(o, horizon) then [ItemOf(o, horizon)] else []
  {
    var o, before := obs[|obs| - 1], GroupOf(obs[..|obs| - 1], key);
    assert (before + [o])[..|before|] == before;
    if KeyOf(o) == key && Breaks(o, horizon) {
      var r := V.Rejection(|before|, o, V.Validate(o, ZERO_TIME, horizon, 0).value);
      ReportedOneMore(V.Rejected(before, ZERO_TIME, horizon, 0), r);
    }
  }

  /** ... and reports the rows it rejects. */
  lemma {:induction false} FailOneMore(obs: seq<Observation>, horizons: map<string, Time>, key: string, horizon: Time)
    requires key !in horizons
    ensures multiset(FailItems(obs, horizons[key := horizon])) ==
            multiset(FailItems(obs, horizons))
            + multiset(Reported(V.Rejected(GroupOf(obs, key), ZERO_TIME, horizon, 0)))
  {
    if obs != [] {
      var o, n := obs[|obs| - 1], |obs| - 1;
      FailOneMore(obs[..n], horizons, key, horizon);
      GroupReportsOneMore(obs, key, horizon);
      FailItemsOneMore(obs, horizons);
      FailItemsOneMore(obs, horizons[key := horizon]);
      OneMoreItem(
        FailItems(obs[..n], horizons), Reported(V.Rejected(GroupOf(obs[..n], key), ZERO_TIME, horizon, 0)),
        FailItems(obs[..n], horizons[key := horizon]),
        NextItem(o, horizons), if KeyOf(o) == key && Breaks(o, horizon) then [ItemOf(o, horizon)] else [],
        NextItem(o, horizons[key := horizon]));
    }
  }

  lemma OneMoreItem<T>(a: seq<T>, b: seq<T>, both: seq<T>, x: seq<T>, y: seq<T>, z: seq<T>)
    requires multiset(both) == multiset(a) + multiset(b)
    requires (x == [] && z == y) || (y == [] && z == x)
    ensures multiset(both + z) == multiset(a + x) + multiset(b + y)
  {
    assert a + [] == a && b + [] == b;
  }

  /** What one row adds to the report. */
  function NextItem(o: Observation, horizons: map<string, Time>): seq<RejectedItem> {
    if KeyOf(o) in horizons && Breaks(o, horizons[KeyOf(o)]) then [ItemOf(o, horizons[KeyOf(o)])] else []
  }

  lemma FailItemsOneMore(obs: seq<Observation>, horizons: map<string, Time>)
    requires obs != []
    ensures FailItems(obs, horizons) == FailItems(obs[..|obs| - 1], horizons) + NextItem(obs[|obs| - 1], horizons)
  {
  }

  /** One more call, tallied. */
  lemma TalliedOneMore(
    obs: seq<Observation>, unknown: seq<RejectedItem>, resp: Response, calls: seq<Call>, c: Call, accepted: nat,
    rejected: seq<V.Rejection>)
    requires Tallied(obs, unknown, resp, calls) && c.key !in HorizonsOf(calls)
    requires accepted == |V.Kept(GroupOf(obs, c.key), ZERO_TIME, c.horizon, 0)|
    requires rejected == V.Rejected(GroupOf(obs, c.key), ZERO_TIME, c.horizon, 0)
    ensures Tallied(obs, unknown,
                    Response(resp.accepted + accepted, resp.skippedIdempotent + c.skipped, resp.rejected + Reported(rejected)),
                    calls + [c])
  {
    assert (calls + [c])[..|calls|] == calls;
    PassOneMore(obs, HorizonsOf(calls), c.key, c.horizon);
    FailOneMore(obs, HorizonsOf(calls), c.key, c.horizon);
  }

  /** Every row is accepted or reported once, when each known row's group was called. */
  lemma {:induction false} EachRowOnce(obs: seq<Observation>, known: set<string>, horizons: map<string, Time>)
    requires forall o :: o in obs && KeyOf(o) in known ==> KeyOf(o) in horizons
    requires horizons.Keys <= known
    ensures PassCount(obs, horizons) + |UnknownOf(obs, known)| + |FailItems(obs, horizons)| == |obs|
  {
    if obs != [] {
      var n := |obs| - 1;
      assert obs[n] in obs;
      EachRowOnce(obs[..n], known, horizons);
    }
  }

  predicate IsDeclared(things: seq<DecodedThing>, i: int, j: int) {
    0 <= i < |things| && 0 <= j < |things[i].properties|
  }

  /** Property `j` of thing `i` is the stream that `o` belongs to. */
  predicate Declares(things: seq<DecodedThing>, i: int, j: int, o: Observation) {
    && IsDeclared(things, i, j)
    && things[i].native == o.thing && things[i].properties[j] == o.property
  }

  class PushServer {
    const outside: Outside
    const processor: Processor

    /** The id the store keeps for each (Thing, property). */
    const ids: map<(string, string), StreamId>

    predicate Ready()
      reads outside, outside.store
    {
      && processor.outside == outside
      && (forall a, b :: a in ids && b in ids && ids[a] == ids[b] ==> a == b)
    }

    constructor (processor: Processor, ids: map<(string, string), StreamId>)
      ensures this.processor == processor && this.outside == processor.outside && this.ids == ids
    {
      this.processor, this.outside, this.ids := processor, processor.outside, ids;
    }

    /** Upserts every declared stream; None when the store fails at one of them. */
    method Register(things: seq<DecodedThing>, fails: (string, string) -> bool)
      returns (streams: Option<map<string, StreamId>>)
      ensures streams.None? <==> exists i, j :: IsDeclared(things, i, j) && Refused(things, i, j, fails)
      ensures streams.Some? ==> forall k :: k in streams.value <==>
                exists i, j :: IsDeclared(things, i, j) && k == StreamKey(things[i].native, things[i].properties[j])
      ensures streams.Some? ==> forall k :: k in streams.value ==>
                exists a :: a in ids && k == StreamKey(a.0, a.1) && streams.value[k] == ids[a]
    {
      var known: map<string, StreamId> := map[];
      for i := 0 to |things|
        invariant forall k :: k in known <==>
                    exists x, y :: x < i && IsDeclared(things, x, y)
                                   && k == StreamKey(things[x].native, things[x].properties[y])
        invariant forall k :: k in known ==>
                    exists a :: a in ids && k == StreamKey(a.0, a.1) && known[k] == ids[a]
        invariant forall x, y :: x < i && IsDeclared(things, x, y) ==> !Refused(things, x, y, fails)
      {
        ghost var before := known;
        for j := 0 to |things[i].properties|
          invariant forall k :: k in known <==>
                      || k in before
                      || exists y :: y < j && IsDeclared(things, i, y) && k == StreamKey(things[i].native, things[i].properties[y])
          invariant forall k :: k in known ==>
                      exists a :: a in ids && k == StreamKey(a.0, a.1) && known[k] == ids[a]
          invariant forall y :: y < j && IsDeclared(things, i, y) ==> !Refused(things, i, y, fails)
        {
          var a := (things[i].native, things[i].properties[j]);
          assert IsDeclared(things, i, j);
          if fails(a.0, a.1) || a !in ids {
            return None;
          }
          known := known[StreamKey(a.0, a.1) := ids[a]];
        }
      }
      return Some(known);
    }

    /** The store has no id for the pair, or fails at its upsert. */
    predicate Refused(things: seq<DecodedThing>, i: int, j: int, fails: (string, string) -> bool)
      requires IsDeclared(things, i, j)
    {
      var a := (things[i].native, things[i].properties[j]);
      fails(a.0, a.1) || a !in ids
    }

    /** One group through the ingest core, with the cursor rule off. */
    method IngestGroup(s: StreamId, obs: seq<Observation>) returns (res: Result, err: bool, ghost horizon: Time)
      requires processor.outside == outside && outside.Valid() && outside.PhaseNow(s) == Idle
      modifies outside, outside.store
      ensures outside.Extended() && HistoryGrew(old(outside.Value()), outside.Value())
      ensures res.accepted == |V.Kept(obs, ZERO_TIME, horizon, 0)|
      ensures res.rejected == V.Rejected(obs, ZERO_TIME, horizon, 0)
      ensures RowsBooked(old(outside.book(s)), outside.book(s), res.accepted, res.skippedIdempotent, err)
      ensures WasHorizon(outside.cfg, outside.first, outside.trace, old(|outside.trace|), horizon)
      ensures !err ==> Settled(outside.Value(), s, ZERO_TIME, horizon, obs)
    {
      outside.ReceivePush(s, obs);
      ghost var so := outside.trace;
      horizon := outside.clock + outside.cfg.skew;
      IsHorizon(outside.cfg, outside.first, so);
      ghost var ids;
      res, err, ids := processor.ProcessStream(s, Push, ZERO_TIME, obs, horizon);
      HorizonAcross(outside.cfg, outside.first, so, outside.trace, |so|, old(|outside.trace|), horizon);
    }

    /** The next group, added to what was reported so far. */
    method IngestNext(
      s: StreamId, group: seq<Observation>, soFar: Response,
      ghost obs: seq<Observation>, ghost unknown: seq<RejectedItem>,
      ghost known: map<string, StreamId>, ghost key: string, ghost calls: seq<Call>, ghost from: nat)
      returns (resp: Response, ok: bool, overlapped: bool, ghost more: seq<Call>)
      requires processor.outside == outside && outside.Valid()
      requires key in known && known[key] == s && group == GroupOf(obs, key) && key !in HorizonsOf(calls)
      requires from <= |outside.trace|
      requires CallsMade(outside.cfg, outside.first, outside.trace, from, known, obs, calls)
      requires Tallied(obs, unknown, soFar, calls)
      modifies outside, outside.store
      ensures outside.Extended()
      ensures !ok ==> resp == soFar && more == calls
      ensures !ok ==> if overlapped then old(outside.PhaseNow(s)) != Idle
                      else outside.book(s).failed == old(outside.book(s)).failed + 1
      ensures ok ==> HorizonsOf(more).Keys == HorizonsOf(calls).Keys + {key}
      ensures CallsMade(outside.cfg, outside.first, outside.trace, from, known, obs, more)
      ensures Tallied(obs, unknown, resp, more)
    {
      resp, ok, overlapped, more := soFar, false, outside.PhaseNow(s) != Idle, calls;
      if overlapped {
        return;
      }
      ghost var before, b := outside.trace, outside.book(s);
      var res, err;
      ghost var horizon;
      res, err, horizon := IngestGroup(s, group);
      CallsStayMade(outside.cfg, outside.first, before, outside.trace, from, known, obs, calls);
      if err {
        return;
      }
      ghost var c := Call(key, horizon, res.skippedIdempotent);
      SkippedSince(outside.cfg, outside.first, before, outside.trace, from, s, b, outside.book(s), c.skipped);
      HorizonAcross(outside.cfg, outside.first, outside.trace, outside.trace, |before|, from, horizon);
      TalliedOneMore(obs, unknown, soFar, calls, c, res.accepted, res.rejected);
      OneMoreCall(outside.cfg, outside.first, outside.trace, from, known, obs, calls, c);
      more := calls + [c];
      resp := Response(soFar.accepted + res.accepted,
                       soFar.skippedIdempotent + res.skippedIdempotent,
                       soFar.rejected + Reported(res.rejected));
      ok := true;
    }

    /** Every group, in any order, up to the first transient failure. */
    method IngestGroups(
      obs: seq<Observation>, known: map<string, StreamId>,
      grouped: map<string, seq<Observation>>, unknown: seq<RejectedItem>)
      returns (resp: Response, ok: bool, overlapped: bool, ghost calls: seq<Call>)
      requires processor.outside == outside && outside.Valid()
      requires grouped.Keys <= known.Keys && forall k :: k in grouped ==> grouped[k] == GroupOf(obs, k)
      modifies outside, outside.store
      ensures outside.Extended()
      ensures CallsMade(outside.cfg, outside.first, outside.trace, old(|outside.trace|), known, obs, calls)
      ensures Tallied(obs, unknown, resp, calls)
      ensures ok ==> HorizonsOf(calls).Keys == grouped.Keys
      ensures !ok ==>
                Stopped(outside.cfg, outside.first, outside.trace, old(|outside.trace|),
                        old(outside.book), outside.book, known, calls, overlapped)
    {
      ghost var from, so, b := |outside.trace|, outside.trace, outside.book;
      resp, ok, overlapped, calls := Response(0, 0, unknown), true, false, [];
      var todo := grouped.Keys;
      NoneCalled(obs);
      while todo != {}
        invariant outside.Extended() && ok
        invariant todo <= grouped.Keys && HorizonsOf(calls).Keys == grouped.Keys - todo
        invariant CallsMade(outside.cfg, outside.first, outside.trace, from, known, obs, calls)
        invariant Tallied(obs, unknown, resp, calls)
        decreases |todo|
      {
        var key :| key in todo;
        ghost var before := outside.trace;
        BooksGrow(outside.cfg, outside.first, so, before, b, outside.book, known[key]);
        ghost var done, mid := HorizonsOf(calls).Keys, outside.book;
        resp, ok, overlapped, calls := IngestNext(known[key], grouped[key], resp, obs, unknown, known, key, calls, from);
        if !ok {
          StoppedHere(outside.cfg, outside.first, before, outside.trace, from, b, mid, outside.book, known, calls, key, overlapped);
          return;
        }
        OneLess(grouped.Keys, todo, done, HorizonsOf(calls).Keys, key);
        todo := todo - {key};
      }
    }

    /** ingestBatch. Every observation of a group that got through is accepted, or reported
        with the rule it breaks; on 202 that is every known one. A 503 has a reason: the
        store failed at registration, a call of one of the streams failed, or another
        request was inside one of them (`overlapped`). */
    method IngestBatch(batch: DecodedBatch, fails: (string, string) -> bool)
      returns (resp: Response, status: int, overlapped: bool,
               ghost registered: bool, ghost streams: map<string, StreamId>, ghost calls: seq<Call>)
      requires Ready() && outside.Valid()
      modifies outside, outside.store
      ensures outside.Extended()
      ensures status == ACCEPTED || status == UNAVAILABLE
      ensures !registered <==> exists i, j :: IsDeclared(batch.things, i, j) && Refused(batch.things, i, j, fails)
      ensures !registered ==> status == UNAVAILABLE && resp == Response(0, 0, [])
      ensures registered ==> Tallied(batch.observations, UnknownOf(batch.observations, streams.Keys), resp, calls)
      ensures registered ==>
                CallsMade(outside.cfg, outside.first, outside.trace, old(|outside.trace|), streams, batch.observations, calls)
      ensures registered ==>
                forall o, i, j :: o in batch.observations && Declares(batch.things, i, j, o) ==> KeyOf(o) in streams
      ensures status == ACCEPTED ==>
                forall o :: o in batch.observations && KeyOf(o) in streams ==> KeyOf(o) in HorizonsOf(calls)
      ensures status == ACCEPTED ==> resp.accepted + |resp.rejected| == |batch.observations|
      ensures status == UNAVAILABLE && registered ==>
                Stopped(outside.cfg, outside.first, outside.trace, old(|outside.trace|),
                        old(outside.book), outside.book, streams, calls, overlapped)
    {
      resp, status, overlapped, registered := Response(0, 0, []), UNAVAILABLE, false, false;
      streams, calls := map[], [];
      var known := Register(batch.things, fails);
      if known.None? {
        return;
      }
      registered, streams := true, known.value;
      forall o, i, j | Declares(batch.things, i, j, o) ensures KeyOf(o) in streams {
        assert KeyOf(o) == StreamKey(batch.things[i].native, batch.things[i].properties[j]);
      }
      var grouped, unknown := Group(batch.observations, known.value);
      var ok;
      resp, ok, overlapped, calls := IngestGroups(batch.observations, known.value, grouped, unknown);
      if ok {
        status := ACCEPTED;
        EachRowOnce(batch.observations, streams.Keys, HorizonsOf(calls));
        SameLength(resp.rejected, unknown, FailItems(batch.observations, HorizonsOf(calls)));
      }
    }
  }

  lemma SameLength<T>(a: seq<T>, b: seq<T>, c: seq<T>)
    requires multiset(a) == multiset(b) + multiset(c)
    ensures |a| == |b| + |c|
  {
    assert |multiset(a)| == |multiset(b)| + |multiset(c)|;
  }

  /** At some event since `from` a cycle of the stream was under way. */
  ghost predicate WasBusy(cfg: Config, first: World, trace: seq<Event>, from: nat, s: StreamId) {
    exists n :: from <= n <= |trace| && PhaseOf(Run(cfg, first, trace[..n]), s) != Idle
  }

  /** Why a request stopped before a group: a call of its stream failed, or another request
      was inside the stream. */
  ghost predicate Stopped(
    cfg: Config, first: World, trace: seq<Event>, from: nat,
    b: StreamId -> Ledger, b': StreamId -> Ledger, known: map<string, StreamId>, calls: seq<Call>, overlapped: bool)
  {
    exists k :: k in known && k !in HorizonsOf(calls)
      && if overlapped then WasBusy(cfg, first, trace, from, known[k]) else b'(known[k]).failed > b(known[k]).failed
  }

  lemma StoppedHere(
    cfg: Config, first: World, trace: seq<Event>, more: seq<Event>, from: nat,
    b: StreamId -> Ledger, mid: StreamId -> Ledger, b': StreamId -> Ledger,
    known: map<string, StreamId>, calls: seq<Call>, key: string, overlapped: bool)
    requires key in known && key !in HorizonsOf(calls) && from <= |trace| && trace <= more
    requires b(known[key]).failed <= mid(known[key]).failed
    requires if overlapped then PhaseOf(Run(cfg, first, trace), known[key]) != Idle
             else b'(known[key]).failed == mid(known[key]).failed + 1
    ensures Stopped(cfg, first, more, from, b, b', known, calls, overlapped)
  {
    assert more[..|trace|] == trace;
  }

  lemma OneLess<T>(all: set<T>, todo: set<T>, done: set<T>, more: set<T>, x: T)
    requires todo <= all && done == all - todo && x in todo && more == done + {x}
    ensures todo - {x} <= all && more == all - (todo - {x}) && |todo - {x}| < |todo|
  {
  }

  lemma BooksGrow(
    cfg: Config, first: World, trace: seq<Event>, more: seq<Event>, b: StreamId -> Ledger, b': StreamId -> Ledger,
    s: StreamId)
    requires trace <= more
    requires b(s) == LedgerOf(cfg, first, trace, s) && b'(s) == LedgerOf(cfg, first, more, s)
    ensures b(s).failed <= b'(s).failed
  {
    LedgerGrows(cfg, first, trace, more, s);
  }

  // ---- What a request has done ----------------------------------------------------------------

  /** Between two events since `from`, `n` observations of the stream were found in the log. */
  ghost predicate WasSkipped(cfg: Config, first: World, trace: seq<Event>, from: nat, s: StreamId, n: nat) {
    exists i, j :: from <= i <= j <= |trace|
      && LedgerOf(cfg, first, trace[..j], s).skipped == LedgerOf(cfg, first, trace[..i], s).skipped + n
  }

  lemma SkippedSince(
    cfg: Config, first: World, trace: seq<Event>, more: seq<Event>, from: nat, s: StreamId,
    b: Ledger, b': Ledger, n: nat)
    requires from <= |trace| && trace <= more
    requires b == LedgerOf(cfg, first, trace, s) && b' == LedgerOf(cfg, first, more, s)
    requires b'.skipped == b.skipped + n
    ensures WasSkipped(cfg, first, more, from, s, n)
  {
    assert more[..|trace|] == trace && more[..|more|] == more;
  }

  lemma SkippedAcross(cfg: Config, first: World, trace: seq<Event>, more: seq<Event>, from: nat, s: StreamId, n: nat)
    requires WasSkipped(cfg, first, trace, from, s, n) && trace <= more
    ensures WasSkipped(cfg, first, more, from, s, n)
  {
    var i, j :| from <= i <= j <= |trace|
      && LedgerOf(cfg, first, trace[..j], s).skipped == LedgerOf(cfg, first, trace[..i], s).skipped + n;
    assert more[..i] == trace[..i] && more[..j] == trace[..j];
  }

  /** The call validated at a horizon since `from`, dealt with every row of its group as that
      demands, and found as many of them in the log as it says. */
  ghost predicate CallMade(
    cfg: Config, first: World, trace: seq<Event>, from: nat, s: StreamId, group: seq<Observation>, c: Call)
  {
    && WasHorizon(cfg, first, trace, from, c.horizon)
    && Settled(Run(cfg, first, trace), s, ZERO_TIME, c.horizon, group)
    && WasSkipped(cfg, first, trace, from, s, c.skipped)
  }

  /** One call per group, each made. */
  ghost predicate CallsMade(
    cfg: Config, first: World, trace: seq<Event>, from: nat,
    known: map<string, StreamId>, obs: seq<Observation>, calls: seq<Call>)
  {
    && (forall i, j :: 0 <= i < j < |calls| ==> calls[i].key != calls[j].key)
    && (forall i :: 0 <= i < |calls| ==>
          && calls[i].key in known
          && CallMade(cfg, first, trace, from, known[calls[i].key], GroupOf(obs, calls[i].key), calls[i]))
  }

  lemma {:induction false} CallHasKey(calls: seq<Call>, i: nat)
    requires i < |calls|
    ensures calls[i].key in HorizonsOf(calls)
  {
    var n := |calls| - 1;
    if i < n {
      CallHasKey(calls[..n], i);
    }
  }

  lemma {:induction false} KeyHasCall(calls: seq<Call>, key: string) returns (i: nat)
    requires key in HorizonsOf(calls)
    ensures i < |calls| && calls[i].key == key
  {
    i := |calls| - 1;
    if calls[i].key != key {
      i := KeyHasCall(calls[..i], key);
    }
  }

  lemma CallsStayMade(
    cfg: Config, first: World, trace: seq<Event>, more: seq<Event>, from: nat,
    known: map<string, StreamId>, obs: seq<Observation>, calls: seq<Call>)
    requires CallsMade(cfg, first, trace, from, known, obs, calls) && trace <= more
    requires HistoryGrew(Run(cfg, first, trace), Run(cfg, first, more))
    ensures CallsMade(cfg, first, more, from, known, obs, calls)
  {
    forall i | 0 <= i < |calls|
      ensures CallMade(cfg, first, more, from, known[calls[i].key], GroupOf(obs, calls[i].key), calls[i])
    {
      var c := calls[i];
      assert CallMade(cfg, first, trace, from, known[c.key], GroupOf(obs, c.key), c);
      HorizonAcross(cfg, first, trace, more, from, from, c.horizon);
      SettledAcross(Run(cfg, first, trace), Run(cfg, first, more), known[c.key], ZERO_TIME, c.horizon, GroupOf(obs, c.key));
      SkippedAcross(cfg, first, trace, more, from, known[c.key], c.skipped);
    }
  }

  lemma OneMoreCall(
    cfg: Config, first: World, trace: seq<Event>, from: nat,
    known: map<string, StreamId>, obs: seq<Observation>, calls: seq<Call>, c: Call)
    requires CallsMade(cfg, first, trace, from, known, obs, calls)
    requires c.key in known && c.key !in HorizonsOf(calls)
    requires CallMade(cfg, first, trace, from, known[c.key], GroupOf(obs, c.key), c)
    ensures CallsMade(cfg, first, trace, from, known, obs, calls + [c])
    ensures HorizonsOf(calls + [c]).Keys == HorizonsOf(calls).Keys + {c.key}
  {
    var more := calls + [c];
    OneMoreKey(calls, c);
    forall i | 0 <= i < |more|
      ensures more[i].key in known
      ensures CallMade(cfg, first, trace, from, known[more[i].key], GroupOf(obs, more[i].key), more[i])
    {
      if i < |calls| { assert more[i] == calls[i]; }
    }
  }

  lemma HorizonsOneMore(calls: seq<Call>, c: Call)
    ensures HorizonsOf(calls + [c]) == HorizonsOf(calls)[c.key := c.horizon]
  {
    assert (calls + [c])[..|calls|] == calls;
  }

  lemma OneMoreKey(calls: seq<Call>, c: Call)
    requires c.key !in HorizonsOf(calls)
    ensures forall i :: 0 <= i < |calls| ==> calls[i].key != c.key
    ensures HorizonsOf(calls + [c]).Keys == HorizonsOf(calls).Keys + {c.key}
  {
    HorizonsOneMore(calls, c);
    forall i | 0 <= i < |calls| ensures calls[i].key != c.key {
      CallHasKey(calls, i);
    }
  }

  /** So every row of a group that was called is dealt with as its call's validation demands. */
  lemma CalledRowIsDealt(
    cfg: Config, first: World, trace: seq<Event>, from: nat,
    known: map<string, StreamId>, obs: seq<Observation>, calls: seq<Call>, o: Observation)
    requires CallsMade(cfg, first, trace, from, known, obs, calls)
    requires o in obs && KeyOf(o) in HorizonsOf(calls)
    ensures KeyOf(o) in known
    ensures exists horizon ::
              && WasHorizon(cfg, first, trace, from, horizon)
              && Dealt(Run(cfg, first, trace), known[KeyOf(o)], ZERO_TIME, horizon, o)
  {
    var i := KeyHasCall(calls, KeyOf(o));
    assert CallMade(cfg, first, trace, from, known[calls[i].key], GroupOf(obs, calls[i].key), calls[i]);
    GroupMembers(obs, KeyOf(o));
  }
}
