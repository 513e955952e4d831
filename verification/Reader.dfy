/** The Collaborall reader as the source has it: the file-backed cursor store and runOnce
    (cmd/collaborall-reader/cursor.go, cmd/collaborall-reader/run.go). Every cycle, however
    its posts and cursor writes go, is proved to be a piece of a run of Delivery. */
module Reader {
  import opened Canonical
  import opened Chunking
  import opened Delivery

  class CursorStore {
    var m: map<Key, Time>
    var file: map<Key, Time>

    /** loadCursorStore: memory starts as the file's contents, empty when there is none. */
    constructor (file: map<Key, Time>)
      ensures m == file && this.file == file
    {
      m, this.file := file, file;
    }

    method Get(key: Key) returns (since: Time)
      ensures since == Delivery.Get(m, key)
    {
      since := if key in m then m[key] else ZERO_TIME;
    }

    /** Moves the cursor forward, never backwards, and persists the whole map by a rename,
        which may fail. */
    method Advance(key: Key, ts: Time) returns (written: bool)
      modifies this
      ensures var stays := key in old(m) && ts <= old(m)[key];
              && m == (if stays then old(m) else old(m)[key := ts])
              && file == (if stays || !written then old(file) else m)
      ensures Behind(old(file), old(m)) ==> Behind(old(m), m) && Behind(file, m)
    {
      if key in m && ts <= m[key] {
        return true;
      }
      m := m[key := ts];
      var renamed: bool := *;
      if renamed {
        file := m;
      }
      return renamed;
    }
  }

  /** What the endpoint reports for one envelope; all zero when its body does not decode. */
  datatype IngestResponse = IngestResponse(accepted: nat, skipped: nat, rejected: nat)

  datatype RunResult = RunResult(streams: nat, posts: nat, accepted: nat, skipped: nat, rejected: nat)

  function Add(res: RunResult, r: IngestResponse): RunResult {
    RunResult(res.streams, res.posts + 1, res.accepted + r.accepted, res.skipped + r.skipped, res.rejected + r.rejected)
  }

  /** The totals of a cycle after the responses it got. */
  function Tally(res: RunResult, responses: seq<IngestResponse>): RunResult {
    if responses == [] then res
    else Add(Tally(res, responses[..|responses| - 1]), responses[|responses| - 1])
  }

  lemma {:induction false} TallyAppend(res: RunResult, a: seq<IngestResponse>, b: seq<IngestResponse>)
    ensures Tally(res, a + b) == Tally(Tally(res, a), b)
  {
    if b == [] {
      assert a + b == a;
    } else {
      var n := |b| - 1;
      assert (a + b)[..|a + b| - 1] == a + b[..n];
      TallyAppend(res, a, b[..n]);
    }
  }

  lemma TallyOne(res: RunResult, responses: seq<IngestResponse>, r: IngestResponse)
    ensures Tally(res, responses + [r]) == Add(Tally(res, responses), r)
  {
    assert (responses + [r])[..|responses|] == responses;
  }

  function Total(responses: seq<IngestResponse>, part: IngestResponse -> nat): nat {
    if responses == [] then 0 else part(responses[0]) + Total(responses[1..], part)
  }

  lemma {:induction false} TotalOneMore(responses: seq<IngestResponse>, r: IngestResponse, part: IngestResponse -> nat)
    ensures Total(responses + [r], part) == Total(responses, part) + part(r)
  {
    if responses != [] {
      assert (responses + [r])[1..] == responses[1..] + [r];
      TotalOneMore(responses[1..], r, part);
    }
  }

  /** The totals are the sums of what the responses say, one post each. */
  lemma {:induction false} TallyIsTheSum(res: RunResult, responses: seq<IngestResponse>)
    ensures var total := Tally(res, responses);
            && total.streams == res.streams && total.posts == res.posts + |responses|
            && total.accepted == res.accepted + Total(responses, (r: IngestResponse) => r.accepted)
            && total.skipped == res.skipped + Total(responses, (r: IngestResponse) => r.skipped)
            && total.rejected == res.rejected + Total(responses, (r: IngestResponse) => r.rejected)
  {
    if responses != [] {
      var n := |responses| - 1;
      TallyIsTheSum(res, responses[..n]);
      assert responses == responses[..n] + [responses[n]];
      TotalOneMore(responses[..n], responses[n], (r: IngestResponse) => r.accepted);
      TotalOneMore(responses[..n], responses[n], (r: IngestResponse) => r.skipped);
      TotalOneMore(responses[..n], responses[n], (r: IngestResponse) => r.rejected);
    }
  }

  /** What a longer run adds to a list of envelopes. */
  lemma {:induction false} ConcatIsPrefix(envs: seq<seq<Observation>>, i: nat)
    requires i <= |envs|
    ensures |Concat(envs[..i])| <= |Concat(envs)| && Concat(envs[..i]) == Concat(envs)[..|Concat(envs[..i])|]
  {
    if i == |envs| {
      assert envs[..i] == envs;
    } else {
      var n := |envs| - 1;
      assert envs[..n][..i] == envs[..i];
      ConcatIsPrefix(envs[..n], i);
    }
  }

  /** Envelope `i` holds the observations that follow those of the first `i`. */
  lemma NextEnvelope(envs: seq<seq<Observation>>, i: nat)
    requires i < |envs|
    ensures var sent := |Concat(envs[..i])|;
            && sent + |envs[i]| <= |Concat(envs)|
            && envs[i] == Concat(envs)[sent..sent + |envs[i]|]
            && |Concat(envs[..i + 1])| == sent + |envs[i]|
  {
    assert envs[..i + 1][..i] == envs[..i];
    ConcatIsPrefix(envs, i);
    ConcatIsPrefix(envs, i + 1);
    assert Concat(envs[..i + 1]) == Concat(envs[..i]) + envs[i];
  }

  ghost predicate AllAcked(w: World, key: Key, obs: seq<Observation>) {
    forall o :: o in obs ==> (key, o.phenomenonTime) in w.acked
  }

  lemma AckedMore(w: World, w': World, key: Key, obs: seq<Observation>, sent: nat, env: seq<Observation>)
    requires w.acked <= w'.acked && sent + |env| <= |obs| && env == obs[sent..sent + |env|]
    requires AllAcked(w, key, obs[..sent]) && AllAcked(w', key, env)
    ensures AllAcked(w', key, obs[..sent + |env|])
  {
    assert obs[..sent + |env|] == obs[..sent] + env;
  }

  lemma RunOneMore(cfg: Config, first: World, trace: seq<Event>, e: Event)
    requires InOrderRun(cfg, first, trace) && InOrder(Run(cfg, first, trace), e)
    ensures Run(cfg, first, trace + [e]) == Step(cfg, Run(cfg, first, trace), e)
    ensures InOrderRun(cfg, first, trace + [e])
  {
    var more := trace + [e];
    assert more[..|more| - 1] == trace;
    forall i | 0 <= i < |more| ensures InOrder(Run(cfg, first, more[..i]), more[i]) {
      assert more[..i] == if i < |trace| then trace[..i] else trace;
    }
  }

  /** What a fetch that was answered leaves behind. */
  lemma BegunEffect(cfg: Config, w: World, key: Key, now: Time)
    requires w.phase.Idle?
    ensures var w', since := Step(cfg, w, Begun(key, now, true)), SinceOf(cfg, w, key, now);
            var obs := if key in w.source then Fetch(w.source[key], since, cfg.pageLimit) else [];
            && w'.source == w.source && w'.mem == w.mem && w'.file == w.file
            && w'.phase == if obs == [] then Idle else Posting(key, since, obs, 0)
  {
  }

  /** What a 2xx leaves behind. */
  lemma PostedEffect(cfg: Config, w: World, key: Key, since: Time, obs: seq<Observation>, sent: nat, env: seq<Observation>)
    requires w.phase == Posting(key, since, obs, sent)
    requires sent + |env| <= |obs| && env == obs[sent..sent + |env|]
    ensures var w' := Step(cfg, w, Posted(|env|));
            && w'.phase == Posting(key, since, obs, sent + |env|)
            && w'.source == w.source && w'.mem == w.mem && w'.file == w.file
            && w.acked <= w'.acked && AllAcked(w', key, env)
  {
    assert forall i :: 0 <= i < |env| ==> env[i] == obs[sent + i];
  }

  /** What the cursor's move leaves behind. */
  lemma AdvancedEffect(cfg: Config, w: World, written: bool)
    requires w.phase.Posting? && w.phase.obs != [] && w.phase.sent == |w.phase.obs|
    ensures var w', key, ts := Step(cfg, w, Advanced(written)), w.phase.key, Newest(w.phase.obs);
            var stays := key in w.mem && ts <= w.mem[key];
            && w'.source == w.source && w'.acked == w.acked && w'.phase == Idle
            && w'.mem == (if stays then w.mem else w.mem[key := ts])
            && w'.file == (if stays || !written then w.file else w'.mem)
  {
  }

  /** The streams whose turn it was in a run, in order. */
  function Turns(es: seq<Event>): seq<Key> {
    if es == [] then []
    else
      var e := es[|es| - 1];
      Turns(es[..|es| - 1]) + if e.Begun? then [e.key] else []
  }

  /** How many fetches and posts of a run failed. */
  function Failures(es: seq<Event>): nat {
    if es == [] then 0 else Failures(es[..|es| - 1]) + if IsFailure(es[|es| - 1]) then 1 else 0
  }

  predicate IsFailure(e: Event) {
    (e.Begun? && !e.fetched) || e.PostFailed?
  }

  lemma TurnsOneMore(es: seq<Event>, e: Event)
    ensures Turns(es + [e]) == Turns(es) + if e.Begun? then [e.key] else []
    ensures Failures(es + [e]) == Failures(es) + if IsFailure(e) then 1 else 0
  {
    assert (es + [e])[..|es|] == es;
  }

  class Cycle {
    const cfg: Config
    const cursors: CursorStore
    var source: map<Key, seq<Row>>
    ghost var w: World
    ghost var first: World
    ghost var trace: seq<Event>

    ghost predicate Valid()
      reads this, cursors
    {
      && Fresh(first) && InOrderRun(cfg, first, trace) && w == Run(cfg, first, trace)
      && w.source == source && w.mem == cursors.m && w.file == cursors.file
    }

    twostate predicate Extended()
      reads this, cursors
    {
      Valid() && first == old(first) && old(trace) <= trace
    }

    /** A first start, with no cursor file. */
    constructor (cfg: Config, source: map<Key, seq<Row>>)
      requires forall k :: k in source ==> Ordered(source[k])
      ensures Valid() && trace == [] && this.source == source && w.phase == Idle
    {
      this.cfg, this.source := cfg, source;
      cursors := new CursorStore(map[]);
      first := World(source, map[], map[], {}, {}, map[], map[], Idle);
      w := World(source, map[], map[], {}, {}, map[], map[], Idle);
      trace := [];
    }

    ghost method Take(e: Event)
      requires Fresh(first) && InOrderRun(cfg, first, trace) && w == Run(cfg, first, trace)
      requires InOrder(w, e)
      modifies `w, `trace
      ensures w == Step(cfg, old(w), e) && w == Run(cfg, first, trace) && InOrderRun(cfg, first, trace)
      ensures old(trace) <= trace && Turns(trace) == Turns(old(trace)) + if e.Begun? then [e.key] else []
      ensures Failures(trace) == Failures(old(trace)) + if IsFailure(e) then 1 else 0
    {
      RunOneMore(cfg, first, trace, e);
      TurnsOneMore(trace, e);
      w := Step(cfg, w, e);
      trace := trace + [e];
    }

    /** A row arrives, unless it is older than one that is there. */
    method Arrive(k: Key, row: Row)
      requires Valid()
      modifies this
      ensures Failures(trace) == Failures(old(trace))
      ensures Turns(trace) == Turns(old(trace))
      ensures Extended() && w == old(w).(source := source)
    {
      var rows := if k in source then source[k] else [];
      if rows == [] || TimeOf(row) >= TimeOf(rows[|rows| - 1]) {
        source := source[k := rows + [row]];
        Take(Arrived(k, row));
      }
    }

    /** Rows may arrive at the source. */
    method Arrivals()
      requires Valid()
      modifies this
      ensures Failures(trace) == Failures(old(trace))
      ensures Turns(trace) == Turns(old(trace))
      ensures Extended() && w == old(w).(source := source)
    {
      var n: int := *;
      for i := 0 to if n < 0 then 0 else n
        invariant Extended() && w == old(w).(source := source)
        invariant Turns(trace) == Turns(old(trace)) && Failures(trace) == Failures(old(trace))
      {
        var k: Key, row: Row := *, *;
        Arrive(k, row);
      }
    }

    /** The source answers with one page of the stream. */
    method FetchPage(key: Key, since: Time, ghost now: Time) returns (obs: seq<Observation>)
      requires Valid() && w.phase.Idle? && since == SinceOf(cfg, w, key, now)
      modifies this
      ensures Failures(trace) == Failures(old(trace))
      ensures Turns(trace) == Turns(old(trace)) + [key]
      ensures Extended() && source == old(source)
      ensures obs == if key in source then Fetch(source[key], since, cfg.pageLimit) else []
      ensures w.phase == if obs == [] then Idle else Posting(key, since, obs, 0)
    {
      obs := if key in source then Fetch(source[key], since, cfg.pageLimit) else [];
      BegunEffect(cfg, w, key, now);
      Take(Begun(key, now, true));
    }

    /** One page of the stream, or a failure to get it. */
    method FetchObservations(key: Key, since: Time, ghost now: Time) returns (obs: seq<Observation>, err: bool)
      requires Valid() && w.phase.Idle? && since == SinceOf(cfg, w, key, now)
      modifies this
      ensures Failures(trace) == Failures(old(trace)) + if err then 1 else 0
      ensures Turns(trace) == Turns(old(trace)) + [key]
      ensures Extended()
      ensures err ==> obs == []
      ensures !err ==> obs == if key in source then Fetch(source[key], since, cfg.pageLimit) else []
      ensures w.phase == if obs == [] then Idle else Posting(key, since, obs, 0)
    {
      Arrivals();
      var answered: bool := *;
      err, obs := !answered, [];
      if answered {
        obs := FetchPage(key, since, now);
      } else {
        Take(Begun(key, now, false));
      }
    }

    /** The endpoint has answered 2xx. */
    ghost method Acknowledge(key: Key, since: Time, obs: seq<Observation>, sent: nat, env: seq<Observation>)
      requires Valid() && w.phase == Posting(key, since, obs, sent)
      requires sent + |env| <= |obs| && env == obs[sent..sent + |env|]
      modifies `w, `trace
      ensures Valid() && old(trace) <= trace
      ensures Turns(trace) == Turns(old(trace)) && Failures(trace) == Failures(old(trace))
      ensures w.phase == Posting(key, since, obs, sent + |env|)
      ensures AllAcked(w, key, env) && old(w.acked) <= w.acked
    {
      PostedEffect(cfg, w, key, since, obs, sent, env);
      Take(Posted(|env|));
    }

    /** One envelope: acknowledged by a 2xx, or not, in which case the endpoint may still
        have ingested it. */
    method Post(key: Key, since: Time, obs: seq<Observation>, sent: nat, env: seq<Observation>)
      returns (resp: Option<IngestResponse>)
      requires Valid() && w.phase == Posting(key, since, obs, sent)
      requires sent + |env| <= |obs| && env == obs[sent..sent + |env|]
      modifies this
      ensures Failures(trace) == Failures(old(trace)) + if resp.Some? then 0 else 1
      ensures Turns(trace) == Turns(old(trace))
      ensures Extended()
      ensures w.phase == if resp.Some? then Posting(key, since, obs, sent + |env|) else Idle
      ensures resp.Some? ==> AllAcked(w, key, env)
      ensures old(w.acked) <= w.acked
    {
      Arrivals();
      resp := *;
      if resp.Some? {
        Acknowledge(key, since, obs, sent, env);
      } else {
        Take(PostFailed);
      }
    }

    /** Envelope `i` of the stream. */
    method PostNext(key: Key, since: Time, obs: seq<Observation>, envs: seq<seq<Observation>>, i: nat)
      returns (resp: Option<IngestResponse>)
      requires Valid() && i < |envs| && Concat(envs) == obs && |Concat(envs[..i])| <= |obs|
      requires w.phase == Posting(key, since, obs, |Concat(envs[..i])|)
      requires AllAcked(w, key, obs[..|Concat(envs[..i])|])
      modifies this
      ensures Failures(trace) == Failures(old(trace)) + if resp.Some? then 0 else 1
      ensures Turns(trace) == Turns(old(trace))
      ensures Extended()
      ensures |Concat(envs[..i + 1])| <= |obs|
      ensures w.phase == if resp.Some? then Posting(key, since, obs, |Concat(envs[..i + 1])|) else Idle
      ensures resp.Some? ==> AllAcked(w, key, obs[..|Concat(envs[..i + 1])|])
    {
      NextEnvelope(envs, i);
      var sent := |Concat(envs[..i])|;
      resp := Post(key, since, obs, sent, envs[i]);
      if resp.Some? {
        AckedMore(old(w), w, key, obs, sent, envs[i]);
      }
    }

    /** Every envelope of the stream, up to the first that fails; `res` counts what came
        back. */
    method PostAll(key: Key, since: Time, obs: seq<Observation>, enc: Encoding, soFar: RunResult)
      returns (res: RunResult, ok: bool, ghost responses: seq<IngestResponse>)
      requires Valid() && w.phase == Posting(key, since, obs, 0)
      modifies this
      ensures Failures(trace) == Failures(old(trace)) + if ok then 0 else 1
      ensures Turns(trace) == Turns(old(trace))
      ensures Extended()
      ensures w.phase == if ok then Posting(key, since, obs, |obs|) else Idle
      ensures ok ==> AllAcked(w, key, obs)
      ensures res == Tally(soFar, responses)
    {
      var envs := ChunkEnvelopes(enc, obs, MAX_ENVELOPE_BYTES);
      res, responses := soFar, [];
      for i := 0 to |envs|
        invariant Extended() && Turns(trace) == Turns(old(trace)) && res == Tally(soFar, responses)
        invariant Failures(trace) == Failures(old(trace))
        invariant |Concat(envs[..i])| <= |obs|
        invariant w.phase == Posting(key, since, obs, |Concat(envs[..i])|)
        invariant AllAcked(w, key, obs[..|Concat(envs[..i])|])
      {
        var resp := PostNext(key, since, obs, envs, i);
        if resp.None? {
          return res, false, responses;
        }
        var r := resp.value;
        TallyOne(soFar, responses, r);
        responses := responses + [r];
        res := Add(res, r);
      }
      assert envs[..|envs|] == envs && obs[..|obs|] == obs;
      ok := true;
    }

    /** The cursor of a stream whose envelopes all went through. */
    method Finish(key: Key, since: Time, obs: seq<Observation>)
      requires Valid() && obs != [] && w.phase == Posting(key, since, obs, |obs|)
      modifies this, cursors
      ensures Failures(trace) == Failures(old(trace))
      ensures Turns(trace) == Turns(old(trace))
      ensures Extended() && w.phase.Idle? && w.acked == old(w.acked)
      ensures cursors.m == if key in old(cursors.m) && Newest(obs) <= old(cursors.m)[key] then old(cursors.m)
                           else old(cursors.m)[key := Newest(obs)]
    {
      var max := MaxPhenomenonTime(obs);
      var written := cursors.Advance(key, max);
      AdvancedEffect(cfg, w, written);
      Take(Advanced(written));
    }

    /** The clock, which is read only when a stream has no cursor. */
    method Now() returns (now: Time) {
      now := *;
    }

    /** One stream of a cycle. Its cursor moves only when everything that was fetched has
        been acknowledged, and then to the newest of it; no other stream's cursor moves. */
    method RunStream(key: Key, enc: Encoding, soFar: RunResult)
      returns (res: RunResult, err: bool, ghost obs: seq<Observation>, ghost responses: seq<IngestResponse>)
      requires Valid() && w.phase.Idle?
      modifies this, cursors
      ensures Failures(trace) == Failures(old(trace)) + if err then 1 else 0
      ensures Turns(trace) == Turns(old(trace)) + [key]
      ensures Extended() && w.phase.Idle?
      ensures res == Tally(soFar, responses)
      ensures err || obs == [] ==> cursors.m == old(cursors.m) && cursors.file == old(cursors.file)
      ensures !err ==> AllAcked(w, key, obs)
      ensures OnlyGrew(old(cursors.m), cursors.m, [key])
      ensures !err && obs != [] ==>
                cursors.m == if key in old(cursors.m) && Newest(obs) <= old(cursors.m)[key] then old(cursors.m)
                             else old(cursors.m)[key := Newest(obs)]
    {
      res, responses := soFar, [];
      var since := cursors.Get(key);
      ghost var now := 0;
      if since == ZERO_TIME {
        var t := Now();
        now := t;
        since := t - cfg.lookback;
      }
      var fetched;
      fetched, err := FetchObservations(key, since, now);
      obs := fetched;
      if err || |fetched| == 0 {
        return;
      }
      res, err, responses := PostStream(key, since, fetched, enc, soFar);
    }

    /** What follows when something was fetched: every envelope, then the cursor. */
    method PostStream(key: Key, since: Time, obs: seq<Observation>, enc: Encoding, soFar: RunResult)
      returns (res: RunResult, err: bool, ghost responses: seq<IngestResponse>)
      requires Valid() && obs != [] && w.phase == Posting(key, since, obs, 0)
      modifies this, cursors
      ensures Extended() && w.phase.Idle?
      ensures Turns(trace) == Turns(old(trace)) && Failures(trace) == Failures(old(trace)) + if err then 1 else 0
      ensures res == Tally(soFar, responses)
      ensures err ==> cursors.m == old(cursors.m) && cursors.file == old(cursors.file)
      ensures !err ==> AllAcked(w, key, obs)
      ensures !err ==>
                cursors.m == if key in old(cursors.m) && Newest(obs) <= old(cursors.m)[key] then old(cursors.m)
                             else old(cursors.m)[key := Newest(obs)]
    {
      var ok;
      res, ok, responses := PostAll(key, since, obs, enc, soFar);
      err := !ok;
      if ok {
        Finish(key, since, obs);
      }
    }

    /** The streams the source lists, or a failure to list them. */
    method Discover() returns (streams: Option<seq<Key>>) {
      streams := *;
    }

    /** runOnce: every discovered stream in turn; one stream's failure does not stop the
        next, and is what the cycle reports. The totals are those of the responses. */
    method RunOnce(encodings: Key -> Encoding)
      returns (res: RunResult, failed: bool,
               ghost listed: bool, ghost streams: seq<Key>, ghost responses: seq<IngestResponse>)
      requires Valid() && w.phase.Idle?
      modifies this, cursors
      ensures failed <==> !listed || Failures(trace) > Failures(old(trace))
      ensures !listed ==> streams == []
      ensures Turns(trace) == Turns(old(trace)) + streams
      ensures Extended() && w.phase.Idle?
      ensures res == Tally(RunResult(|streams|, 0, 0, 0, 0), responses)
      ensures OnlyGrew(old(cursors.m), cursors.m, streams)
      ensures forall k :: k in cursors.file ==> NothingLost(w, k)
    {
      res, failed, streams, responses := RunResult(0, 0, 0, 0, 0), false, [], [];
      var discovered := Discover();
      listed := discovered.Some?;
      if discovered.None? {
        failed := true;
      } else {
        streams := discovered.value;
        res, failed, responses := RunStreams(discovered.value, encodings);
      }
      forall k | k in cursors.file ensures NothingLost(w, k) {
        NothingBelowTheFileCursorIsLost(cfg, first, trace, k);
      }
    }

    method RunStreams(streams: seq<Key>, encodings: Key -> Encoding)
      returns (res: RunResult, failed: bool, ghost responses: seq<IngestResponse>)
      requires Valid() && w.phase.Idle?
      modifies this, cursors
      ensures Failures(trace) >= Failures(old(trace)) && (failed <==> Failures(trace) > Failures(old(trace)))
      ensures Turns(trace) == Turns(old(trace)) + streams
      ensures Extended() && w.phase.Idle?
      ensures res == Tally(RunResult(|streams|, 0, 0, 0, 0), responses)
      ensures OnlyGrew(old(cursors.m), cursors.m, streams)
    {
      res, failed, responses := RunResult(|streams|, 0, 0, 0, 0), false, [];
      for i := 0 to |streams|
        invariant Extended() && w.phase.Idle? && Turns(trace) == Turns(old(trace)) + streams[..i]
        invariant res == Tally(RunResult(|streams|, 0, 0, 0, 0), responses)
        invariant OnlyGrew(old(cursors.m), cursors.m, streams)
        invariant Failures(trace) >= Failures(old(trace)) && (failed <==> Failures(trace) > Failures(old(trace)))
      {
        ghost var before, turns := cursors.m, Turns(trace);
        var total, err, obs, more := RunStream(streams[i], encodings(streams[i]), res);
        TallyAppend(RunResult(|streams|, 0, 0, 0, 0), responses, more);
        res, responses := total, responses + more;
        failed := failed || err;
        NextTurn(Turns(old(trace)), streams, i, turns);
        GrewOneMore(old(cursors.m), before, cursors.m, streams, i);
      }
      assert streams[..|streams|] == streams;
    }

    /** The process dies and is started again: memory is what the file says. */
    method Restart() returns (next: Cycle)
      requires Valid()
      ensures next.Valid() && fresh(next) && next.w.phase.Idle? && next.source == source
      ensures next.cursors.m == next.cursors.file == cursors.file
      ensures next.first == first && next.trace == trace + [Crash]
    {
      next := new Cycle.After(this);
    }

    constructor After(dead: Cycle)
      requires dead.Valid()
      ensures Valid() && w.phase.Idle? && source == dead.source
      ensures fresh(cursors) && cursors.m == cursors.file == dead.cursors.file
      ensures first == dead.first && trace == dead.trace + [Crash]
    {
      RunOneMore(dead.cfg, dead.first, dead.trace, Crash);
      cfg, source := dead.cfg, dead.source;
      cursors := new CursorStore(dead.cursors.file);
      first, trace := dead.first, dead.trace + [Crash];
      w := Step(dead.cfg, dead.w, Crash);
    }
  }

  /** No cursor fell, and those of other streams are as they were. */
  predicate OnlyGrew(m: map<Key, Time>, m': map<Key, Time>, streams: seq<Key>) {
    && (forall k :: k in m ==> k in m' && m[k] <= m'[k])
    && (forall k :: k in m' && k !in streams ==> k in m && m'[k] == m[k])
  }

  lemma GrewOneMore(m: map<Key, Time>, mid: map<Key, Time>, m': map<Key, Time>, streams: seq<Key>, i: nat)
    requires i < |streams| && OnlyGrew(m, mid, streams) && OnlyGrew(mid, m', [streams[i]])
    ensures OnlyGrew(m, m', streams)
  {
    assert forall k :: k !in streams ==> k !in [streams[i]];
  }

  lemma NextTurn(turns: seq<Key>, streams: seq<Key>, i: nat, mid: seq<Key>)
    requires i < |streams| && mid == turns + streams[..i]
    ensures mid + [streams[i]] == turns + streams[..i + 1]
  {
  }

  /** The file's cursor for `k` is not ahead of memory's, and stands on delivered ground. */
  ghost predicate NothingLost(w: World, k: Key)
    requires k in w.file
  {
    && k in w.mem && w.file[k] <= w.mem[k]
    && k in w.fileBase && (k, w.fileBase[k]) in w.seeds && Delivered(w, k, w.fileBase[k], w.file[k])
  }
}
