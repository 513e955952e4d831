/** The SULO adapter's fetch (internal/adapters/sulo/sulo.go): page through a slot's fill
    levels newest first, then filter, de-duplicate and sort them; and what that means for
    the ingest core, which needs oldest-first prefixes of the source. */
module Sulo {
  import opened Canonical
  import opened Paging
  import A = AtMostOnce
  import G = GapFree
  import WP = WritePath
  import opened Store
  import V = Validator

  /** One fill-level row: `time` is None when it does not parse, `fillLevel` when unset. */
  datatype Row = Level(time: Option<Time>, fillLevel: Option<Reading>, confidence: Option<int>)

  /** The arguments of one fetch, with the adapter's clock and confidence floor. */
  datatype Query = Query(slot: int, since: Time, now: Time, minConf: int)

  predicate Passes(q: Query, r: Row) {
    && r.time.Some? && r.time.value <= q.now
    && r.fillLevel.Some?
    && (r.confidence.Some? ==> r.confidence.value >= q.minConf)
    && (q.since != ZERO_TIME ==> r.time.value > q.since)
  }

  const UNIX_EPOCH: Time := 62_135_596_800 * 1_000_000_000

  /** time.UnixNano: nanoseconds since 1970 as an int64. */
  function UnixNano(t: Time): int {
    Int64(t - UNIX_EPOCH)
  }

  // ---- Slot ids -------------------------------------------------------------------------

  predicate AreDigits(s: string) {
    s != [] && forall i :: 0 <= i < |s| ==> '0' <= s[i] <= '9'
  }

  function ValueOf(digits: string): nat
    requires forall i :: 0 <= i < |digits| ==> '0' <= digits[i] <= '9'
  {
    if digits == [] then 0
    else
      10 * ValueOf(digits[..|digits| - 1]) + (digits[|digits| - 1] as int - '0' as int)
  }

  /** strconv.ParseInt in base 10: an optional sign, digits, and an int64. */
  function ParseInt(s: string): Option<int> {
    var signed := s != [] && (s[0] == '-' || s[0] == '+');
    var digits := if signed then s[1..] else s;
    if !AreDigits(digits) then None
    else
      var n: int := ValueOf(digits);
      var v := if signed && s[0] == '-' then -n else n;
      if -TWO_TO_THE_63 <= v < TWO_TO_THE_63 then Some(v) else None
  }

  function Digits(n: nat): (s: string)
    ensures AreDigits(s) && ValueOf(s) == n
  {
    var last := '0' + (n % 10) as char;
    if n < 10 then [last] else Digits(n / 10) + [last]
  }

  /** strconv.FormatInt in base 10. */
  function FormatInt(n: int): string {
    if n < 0 then "-" + Digits(-n) else Digits(n)
  }

  /** The id an observation carries leads back to its slot, so different slots never share
      one. */
  lemma SlotRoundTrip(n: int)
    requires -TWO_TO_THE_63 <= n < TWO_TO_THE_63
    ensures ParseInt(FormatInt(n)) == Some(n)
  {
    if n < 0 {
      assert FormatInt(n)[1..] == Digits(-n);
    }
  }

  // ---- One batch of rows ------------------------------------------------------------------

  function ToObs(q: Query, r: Row): Observation
    requires r.time.Some? && r.fillLevel.Some?
  {
    Observation(FormatInt(q.slot), FILL_LEVEL, r.time.value, r.time.value, r.fillLevel.value, None, "")
  }

  /** Row `i` passes, and no earlier passing row has its nanosecond stamp. */
  predicate First(q: Query, rows: seq<Row>, i: int) {
    && 0 <= i < |rows| && Passes(q, rows[i])
    && forall j :: 0 <= j < i && Passes(q, rows[j]) ==>
         UnixNano(rows[j].time.value) != UnixNano(rows[i].time.value)
  }

  predicate Ascending(obs: seq<Observation>) {
    forall i, j :: 0 <= i < j < |obs| ==> obs[i].phenomenonTime < obs[j].phenomenonTime
  }

  /** `out` is strictly ascending and holds the first passing row of each stamp. */
  ghost predicate Exact(q: Query, rows: seq<Row>, out: seq<Observation>) {
    && Ascending(out)
    && (forall o :: o in out ==> exists i :: First(q, rows, i) && o == ToObs(q, rows[i]))
    && (forall i :: First(q, rows, i) ==> ToObs(q, rows[i]) in out)
  }

  predicate Sorted(obs: seq<Observation>) {
    forall i, j :: 0 <= i < j < |obs| ==> obs[i].phenomenonTime <= obs[j].phenomenonTime
  }

  method Insert(sorted: seq<Observation>, o: Observation) returns (more: seq<Observation>)
    requires Sorted(sorted)
    ensures Sorted(more) && multiset(more) == multiset(sorted) + multiset{o}
  {
    var k := 0;
    while k < |sorted| && sorted[k].phenomenonTime < o.phenomenonTime
      invariant k <= |sorted|
      invariant forall i :: 0 <= i < k ==> sorted[i].phenomenonTime < o.phenomenonTime
    {
      k := k + 1;
    }
    more := sorted[..k] + [o] + sorted[k..];
    assert sorted == sorted[..k] + sorted[k..];
  }

  /** slices.SortFunc by phenomenon time. It is not a stable sort, so nothing is said about
      the order of equal times. */
  method SortByTime(obs: seq<Observation>) returns (sorted: seq<Observation>)
    ensures multiset(sorted) == multiset(obs)
    ensures Sorted(sorted)
  {
    sorted := [];
    for n := 0 to |obs|
      invariant multiset(sorted) == multiset(obs[..n])
      invariant Sorted(sorted)
    {
      sorted := Insert(sorted, obs[n]);
      assert obs[..n + 1] == obs[..n] + [obs[n]];
    }
    assert obs[..|obs|] == obs;
  }

  predicate DistinctTimes(obs: seq<Observation>) {
    forall i, j :: 0 <= i < j < |obs| ==> obs[i].phenomenonTime != obs[j].phenomenonTime
  }

  /** Sorting different times makes them strictly ascending, stable sort or not. */
  lemma SortedIsAscending(obs: seq<Observation>, sorted: seq<Observation>)
    requires multiset(sorted) == multiset(obs) && DistinctTimes(obs)
    requires Sorted(sorted)
    ensures Ascending(sorted) && forall o :: o in sorted <==> o in obs
  {
    forall o ensures o in sorted <==> o in obs {
      assert o in sorted <==> o in multiset(sorted);
      assert o in obs <==> o in multiset(obs);
    }
    forall i, j | 0 <= i < j < |sorted| ensures sorted[i].phenomenonTime < sorted[j].phenomenonTime {
      if sorted[i].phenomenonTime == sorted[j].phenomenonTime {
        TwiceInSorted(obs, sorted, i, j);
      }
    }
  }

  lemma TwiceInSorted(obs: seq<Observation>, sorted: seq<Observation>, i: nat, j: nat)
    requires multiset(sorted) == multiset(obs) && DistinctTimes(obs)
    requires i < j < |sorted|
    ensures sorted[i].phenomenonTime != sorted[j].phenomenonTime
  {
    var a, b := sorted[i], sorted[j];
    assert a in multiset(obs) && b in multiset(obs);
    if a == b {
      assert sorted == sorted[..j] + sorted[j..];
      assert a in sorted[..j] && a in sorted[j..];
      assert multiset(sorted)[a] >= 2;
      DistinctMeansOnce(obs, a);
    }
  }

  lemma {:induction false} DistinctMeansOnce(obs: seq<Observation>, o: Observation)
    requires DistinctTimes(obs)
    ensures multiset(obs)[o] <= 1
  {
    if obs != [] {
      var n := |obs| - 1;
      DistinctMeansOnce(obs[..n], o);
      assert obs == obs[..n] + [obs[n]];
      if o == obs[n] {
        assert o !in obs[..n];
      }
    }
  }

  /** What the first `i` rows have left in `seen` and `found`. */
  ghost predicate Collected(q: Query, rows: seq<Row>, i: nat, seen: set<int>, found: seq<Observation>)
    requires i <= |rows|
  {
    && SeenStamps(q, rows, i, seen)
    && FoundFirsts(q, rows, i, found)
    && DistinctTimes(found)
    && (forall o :: o in found ==> UnixNano(o.phenomenonTime) in seen)
  }

  ghost predicate SeenStamps(q: Query, rows: seq<Row>, i: nat, seen: set<int>)
    requires i <= |rows|
  {
    && (forall j :: 0 <= j < i && Passes(q, rows[j]) ==> UnixNano(rows[j].time.value) in seen)
    && (forall n :: n in seen ==> exists j :: 0 <= j < i && Passes(q, rows[j]) && UnixNano(rows[j].time.value) == n)
  }

  ghost predicate FoundFirsts(q: Query, rows: seq<Row>, i: nat, found: seq<Observation>)
    requires i <= |rows|
  {
    && (forall o :: o in found ==> exists j :: j < i && First(q, rows, j) && o == ToObs(q, rows[j]))
    && (forall j :: j < i && First(q, rows, j) ==> ToObs(q, rows[j]) in found)
  }

  lemma SkipRow(q: Query, rows: seq<Row>, i: nat, seen: set<int>, found: seq<Observation>)
    requires i < |rows| && Collected(q, rows, i, seen, found)
    requires Passes(q, rows[i]) ==> UnixNano(rows[i].time.value) in seen
    ensures Collected(q, rows, i + 1, seen, found)
  {
    if Passes(q, rows[i]) {
      var n := UnixNano(rows[i].time.value);
      var j :| 0 <= j < i && Passes(q, rows[j]) && UnixNano(rows[j].time.value) == n;
    }
    assert !First(q, rows, i);
  }

  lemma TakeStamp(q: Query, rows: seq<Row>, i: nat, seen: set<int>)
    requires i < |rows| && SeenStamps(q, rows, i, seen) && Passes(q, rows[i])
    ensures SeenStamps(q, rows, i + 1, seen + {UnixNano(rows[i].time.value)})
  {
  }

  lemma TakeFirst(q: Query, rows: seq<Row>, i: nat, found: seq<Observation>)
    requires i < |rows| && FoundFirsts(q, rows, i, found) && First(q, rows, i)
    ensures FoundFirsts(q, rows, i + 1, found + [ToObs(q, rows[i])])
  {
    var o := ToObs(q, rows[i]);
    forall x | x in found + [o] ensures exists j :: j < i + 1 && First(q, rows, j) && x == ToObs(q, rows[j]) {
      if x in found {
        var j :| j < i && First(q, rows, j) && x == ToObs(q, rows[j]);
      }
    }
  }

  lemma TakeRow(q: Query, rows: seq<Row>, i: nat, seen: set<int>, found: seq<Observation>)
    requires i < |rows| && Collected(q, rows, i, seen, found)
    requires Passes(q, rows[i]) && UnixNano(rows[i].time.value) !in seen
    ensures Collected(q, rows, i + 1, seen + {UnixNano(rows[i].time.value)}, found + [ToObs(q, rows[i])])
  {
    TakeStamp(q, rows, i, seen);
    TakeFirst(q, rows, i, found);
    forall k | 0 <= k < |found| ensures found[k].phenomenonTime != rows[i].time.value {
      assert found[k] in found;
    }
  }

  method ToObservations(q: Query, rows: seq<Row>) returns (out: seq<Observation>)
    ensures Exact(q, rows, out)
  {
    var seen: set<int> := {};
    var found: seq<Observation> := [];
    for i := 0 to |rows|
      invariant Collected(q, rows, i, seen, found)
    {
      var r := rows[i];
      if r.time.None?
         || r.time.value > q.now
         || r.fillLevel.None?
         || (r.confidence.Some? && r.confidence.value < q.minConf)
         || (q.since != ZERO_TIME && r.time.value <= q.since)
         || UnixNano(r.time.value) in seen
      {
        SkipRow(q, rows, i, seen, found);
        continue;
      }
      TakeRow(q, rows, i, seen, found);
      seen := seen + {UnixNano(r.time.value)};
      found := found + [ToObs(q, r)];
    }
    out := SortByTime(found);
    SortedIsAscending(found, out);
  }

  // ---- What Exact determines --------------------------------------------------------------

  /** A passing row has a first row of its stamp at or before it. */
  lemma {:induction false} FirstExists(q: Query, rows: seq<Row>, i: nat) returns (f: nat)
    requires i < |rows| && Passes(q, rows[i])
    ensures f <= i && First(q, rows, f) && UnixNano(rows[f].time.value) == UnixNano(rows[i].time.value)
    decreases i
  {
    if First(q, rows, i) {
      f := i;
    } else {
      var j :| 0 <= j < i && Passes(q, rows[j]) && UnixNano(rows[j].time.value) == UnixNano(rows[i].time.value);
      f := FirstExists(q, rows, j);
    }
  }

  /** Two strictly ascending lists of the same observations are the same list. */
  lemma {:induction false} AscendingIsUnique(a: seq<Observation>, b: seq<Observation>)
    requires Ascending(a) && Ascending(b)
    requires forall o :: o in a <==> o in b
    ensures a == b
  {
    assert a != [] ==> a[0] in b;
    assert b != [] ==> b[0] in a;
    if a != [] {
      var m := |a| - 1;
      assert a[m] in b;
      var n := |b| - 1;
      assert b[n] in a;
      assert a[m] == b[n];
      forall o ensures o in a[..m] <==> o in b[..n] {
        assert o in a <==> o in a[..m] || o == a[m] by { assert a == a[..m] + [a[m]]; }
        assert o in b <==> o in b[..n] || o == b[n] by { assert b == b[..n] + [b[n]]; }
      }
      AscendingIsUnique(a[..m], b[..n]);
    }
  }

  /** The output is a function of the rows: no sort, stable or not, could give another. */
  lemma ExactIsUnique(q: Query, rows: seq<Row>, a: seq<Observation>, b: seq<Observation>)
    requires Exact(q, rows, a) && Exact(q, rows, b)
    ensures a == b
  {
    forall o ensures o in a <==> o in b {}
    AscendingIsUnique(a, b);
  }

  /** Some passing row carries time `t`. */
  predicate PassingTime(q: Query, rows: seq<Row>, t: Time) {
    exists i :: 0 <= i < |rows| && Passes(q, rows[i]) && rows[i].time.value == t
  }

  /** No two passing rows of different times share a nanosecond stamp. */
  predicate Distinguishable(q: Query, rows: seq<Row>) {
    forall i, j :: 0 <= i < |rows| && 0 <= j < |rows| && Passes(q, rows[i]) && Passes(q, rows[j])
                   && UnixNano(rows[i].time.value) == UnixNano(rows[j].time.value) ==>
      rows[i].time == rows[j].time
  }

  /** Times less than 2^64 ns apart have different stamps. */
  lemma StampsApart(a: Time, b: Time)
    requires UnixNano(a) == UnixNano(b) && -TWO_TO_THE_64 < a - b < TWO_TO_THE_64
    ensures a == b
  {
    Int64IsMod(a - UNIX_EPOCH);
    Int64IsMod(b - UNIX_EPOCH);
  }

  /** With the cursor set, stamps tell times apart for 584 years after it. */
  lemma RecentRowsAreDistinguishable(q: Query, rows: seq<Row>)
    requires q.since != ZERO_TIME && q.now - q.since <= TWO_TO_THE_64
    ensures Distinguishable(q, rows)
  {
    forall i, j | 0 <= i < |rows| && 0 <= j < |rows| && Passes(q, rows[i]) && Passes(q, rows[j])
                  && UnixNano(rows[i].time.value) == UnixNano(rows[j].time.value)
      ensures rows[i].time == rows[j].time
    {
      StampsApart(rows[i].time.value, rows[j].time.value);
    }
  }

  /** The output's times are exactly those of the passing rows — if and only if the int64
      stamps tell the passing rows' times apart. */
  lemma TimesAreExactIff(q: Query, rows: seq<Row>, out: seq<Observation>)
    requires Exact(q, rows, out)
    ensures (forall t :: HasTime(out, t) <==> PassingTime(q, rows, t)) <==> Distinguishable(q, rows)
  {
    if Distinguishable(q, rows) {
      forall t ensures HasTime(out, t) <==> PassingTime(q, rows, t) {
        TimeIsKept(q, rows, out, t);
      }
    } else {
      var i, j :| 0 <= i < |rows| && 0 <= j < |rows| && Passes(q, rows[i]) && Passes(q, rows[j])
                  && UnixNano(rows[i].time.value) == UnixNano(rows[j].time.value)
                  && rows[i].time != rows[j].time;
      assert PassingTime(q, rows, rows[i].time.value) && PassingTime(q, rows, rows[j].time.value);
      if HasTime(out, rows[i].time.value) && HasTime(out, rows[j].time.value) {
        var k :| 0 <= k < |out| && out[k].phenomenonTime == rows[i].time.value;
        var l :| 0 <= l < |out| && out[l].phenomenonTime == rows[j].time.value;
        StampIsOnce(q, rows, out, out[k], out[l]);
      }
    }
  }

  lemma TimeIsKept(q: Query, rows: seq<Row>, out: seq<Observation>, t: Time)
    requires Exact(q, rows, out)
    ensures HasTime(out, t) ==> PassingTime(q, rows, t)
    ensures Distinguishable(q, rows) && PassingTime(q, rows, t) ==> HasTime(out, t)
  {
    if HasTime(out, t) {
      var k :| 0 <= k < |out| && out[k].phenomenonTime == t;
      assert out[k] in out;
    }
    if Distinguishable(q, rows) && PassingTime(q, rows, t) {
      var i :| 0 <= i < |rows| && Passes(q, rows[i]) && rows[i].time.value == t;
      var f := FirstExists(q, rows, i);
      var k :| 0 <= k < |out| && out[k] == ToObs(q, rows[f]);
      assert out[k].phenomenonTime == t;
    }
  }

  lemma StampIsOnce(q: Query, rows: seq<Row>, out: seq<Observation>, a: Observation, b: Observation)
    requires Exact(q, rows, out) && a in out && b in out
    requires UnixNano(a.phenomenonTime) == UnixNano(b.phenomenonTime)
    ensures a == b
  {
  }

  /** Each output row has the value of the first passing row of its time in input order. */
  lemma FirstValueWins(q: Query, rows: seq<Row>, out: seq<Observation>, i: nat)
    requires Exact(q, rows, out) && Distinguishable(q, rows)
    requires i < |rows| && Passes(q, rows[i])
    requires forall j :: 0 <= j < i && Passes(q, rows[j]) ==> rows[j].time != rows[i].time
    ensures ToObs(q, rows[i]) in out
    ensures forall o :: o in out && o.phenomenonTime == rows[i].time.value ==> o == ToObs(q, rows[i])
    ensures var r := rows[i];
            var o := ToObs(q, r);
            && o.result == r.fillLevel.value && o.phenomenonTime == o.resultTime == r.time.value
            && o.thing == FormatInt(q.slot) && o.property == FILL_LEVEL && o.raw.None?
  {
  }

  /** Every row with a given stamp says the same. */
  predicate OneRowPerStamp(q: Query, rows: seq<Row>) {
    forall r, s :: r in rows && s in rows && Passes(q, r) && Passes(q, s)
                   && UnixNano(r.time.value) == UnixNano(s.time.value) ==>
      ToObs(q, r) == ToObs(q, s)
  }

  /** Live paging repeats rows and may deliver them in another order. As long as the vendor
      has one estimate per instant, neither changes the output. */
  lemma RepeatsAndOrderDoNotMatter(q: Query, rows: seq<Row>, again: seq<Row>, out: seq<Observation>)
    requires OneRowPerStamp(q, rows) && forall r :: r in rows <==> r in again
    requires Exact(q, rows, out)
    ensures Exact(q, again, out)
  {
    forall o | o in out ensures exists i :: First(q, again, i) && o == ToObs(q, again[i]) {
      var i :| First(q, rows, i) && o == ToObs(q, rows[i]);
      assert rows[i] in again;
      var j :| 0 <= j < |again| && again[j] == rows[i];
      var f := FirstExists(q, again, j);
      assert again[f] in rows;
    }
    forall i | First(q, again, i) ensures ToObs(q, again[i]) in out {
      assert again[i] in rows;
      var j :| 0 <= j < |rows| && rows[j] == again[i];
      var f := FirstExists(q, rows, j);
      assert ToObs(q, rows[f]) == ToObs(q, rows[j]);
    }
  }

  /** Inserting a row that is not first keeps every other row's standing. */
  lemma FirstShifts(q: Query, rows: seq<Row>, p: nat, r: Row, i: nat)
    requires p <= |rows| && i < |rows|
    requires Passes(q, r) ==> exists j :: 0 <= j < p && Passes(q, rows[j])
                                && UnixNano(rows[j].time.value) == UnixNano(r.time.value)
    ensures First(q, rows, i) <==> First(q, rows[..p] + [r] + rows[p..], if i < p then i else i + 1)
  {
    var more, i' := rows[..p] + [r] + rows[p..], if i < p then i else i + 1;
    assert forall j :: 0 <= j < p ==> more[j] == rows[j];
    assert forall j :: p <= j < |rows| ==> more[j + 1] == rows[j];
    if First(q, more, i') {
      forall j | 0 <= j < i && Passes(q, rows[j]) ensures UnixNano(rows[j].time.value) != UnixNano(rows[i].time.value) {
        assert more[if j < p then j else j + 1] == rows[j];
      }
    }
  }

  /** Even where estimates differ, a later row of a stamp that already passed changes
      nothing. */
  lemma LaterRowChangesNothing(q: Query, rows: seq<Row>, p: nat, r: Row, out: seq<Observation>)
    requires p <= |rows| && Exact(q, rows, out)
    requires Passes(q, r) ==> exists j :: 0 <= j < p && Passes(q, rows[j])
                                && UnixNano(rows[j].time.value) == UnixNano(r.time.value)
    ensures Exact(q, rows[..p] + [r] + rows[p..], out)
  {
    forall o | o in out
      ensures exists i :: First(q, rows[..p] + [r] + rows[p..], i) && o == ToObs(q, (rows[..p] + [r] + rows[p..])[i])
    {
      var i :| First(q, rows, i) && o == ToObs(q, rows[i]);
      FirstMoves(q, rows, p, r, i);
    }
    forall i | First(q, rows[..p] + [r] + rows[p..], i) ensures ToObs(q, (rows[..p] + [r] + rows[p..])[i]) in out {
      var i' := FirstCameFrom(q, rows, p, r, i);
      assert ToObs(q, rows[i']) in out;
    }
  }

  lemma FirstMoves(q: Query, rows: seq<Row>, p: nat, r: Row, i: nat)
    requires p <= |rows| && First(q, rows, i)
    requires Passes(q, r) ==> exists j :: 0 <= j < p && Passes(q, rows[j])
                                && UnixNano(rows[j].time.value) == UnixNano(r.time.value)
    ensures var more, i' := rows[..p] + [r] + rows[p..], if i < p then i else i + 1;
            First(q, more, i') && more[i'] == rows[i]
  {
    FirstShifts(q, rows, p, r, i);
  }

  lemma FirstCameFrom(q: Query, rows: seq<Row>, p: nat, r: Row, i: nat) returns (i': nat)
    requires p <= |rows| && First(q, rows[..p] + [r] + rows[p..], i)
    requires Passes(q, r) ==> exists j :: 0 <= j < p && Passes(q, rows[j])
                                && UnixNano(rows[j].time.value) == UnixNano(r.time.value)
    ensures First(q, rows, i') && rows[i'] == (rows[..p] + [r] + rows[p..])[i]
  {
    var more := rows[..p] + [r] + rows[p..];
    assert more[p] == r && forall j :: 0 <= j < p ==> more[j] == rows[j];
    assert i != p;
    i' := if i < p then i else i - 1;
    FirstShifts(q, rows, p, r, i');
  }

  // ---- The fetch, and what the cursor makes of it -----------------------------------------

  /** Why a fetch failed: an id that is no slot id, for good, or a request of the paging. */
  datatype FetchError = BadSlotId | PagingFailed

  /** FetchObservations, with request j of the paging answered from `lists[j]`. */
  method FetchObservations(
    native: string, property: string, since: Time, now: Time, minConf: int,
    limit: int, pageLimit: nat, pageSize: nat, lists: seq<seq<Row>>, fails: seq<bool>)
    returns (err: Option<FetchError>, out: seq<Observation>, q: Query,
             rows: seq<Row>, stop: Stop, requests: nat, ghost at: seq<int>, ghost lo: int, ghost hi: nat)
    requires pageLimit > 0 && pageSize > 0
    requires |lists| == |fails| == MAX_PAGES && GrowsAtFront(lists)
    ensures property != FILL_LEVEL ==> err == None && out == [] && requests == 0
    ensures requests <= MAX_PAGES
    ensures property == FILL_LEVEL ==> (err == Some(BadSlotId) <==> ParseInt(native).None?)
    ensures err == Some(BadSlotId) ==> requests == 0
    ensures err == Some(PagingFailed) <==> exists j :: 0 <= j < requests && fails[j]
    ensures err == None && property == FILL_LEVEL ==>
              && q == Query(ParseInt(native).value, since, now, minConf)
              && Exact(q, rows, out)
              && Ended(lists, pageSize, if limit <= 0 then pageLimit else limit, rows, stop, requests, at, lo, hi)
    ensures forall o :: o in out ==> o.phenomenonTime <= now && (since != ZERO_TIME ==> o.phenomenonTime > since)
  {
    err, out, q, rows, stop, requests := None, [], Query(0, since, now, minConf), [], ShortPage, 0;
    at, lo, hi := [], 0, 0;
    if property != FILL_LEVEL {
      return;
    }
    var slot := ParseInt(native);
    if slot.None? {
      err := Some(BadSlotId);
      return;
    }
    q := q.(slot := slot.value);
    var failed;
    failed, rows, stop, requests, at, lo, hi := Paged(lists, fails, pageSize, if limit <= 0 then pageLimit else limit);
    if failed {
      err := Some(PagingFailed);
      return;
    }
    out := ToObservations(q, rows);
  }

  /** REEN's order, as far as the rows that pass are concerned. */
  predicate NewestFirst(q: Query, rows: seq<Row>) {
    forall i, j :: 0 <= i < j < |rows| && Passes(q, rows[i]) && Passes(q, rows[j]) ==>
      rows[i].time.value >= rows[j].time.value
  }

  /** The instants the vendor has for a stream, as far as this fetch could publish them. */
  ghost function SourceOf(s: StreamId, q: Query, rows: seq<Row>): G.Source {
    iset t | PassingTime(q, rows, t) :: (s, t)
  }

  /** When nothing unread is as old as anything published, the fetch is a prefix. */
  lemma NewerUnreadIsAPrefix(s: StreamId, q: Query, list: seq<Row>, rows: seq<Row>, out: seq<Observation>)
    requires Exact(q, rows, out) && Distinguishable(q, rows)
    requires forall i, r :: 0 <= i < |list| && Passes(q, list[i]) && r in rows && Passes(q, r) ==>
               list[i] in rows || PassingTime(q, rows, list[i].time.value) || list[i].time.value > r.time.value
    ensures G.PrefixFetch(SourceOf(s, q, list), s, q.since, out)
  {
    var m := WP.MaxTime(out, q.since);
    G.MaxTimeIsMax(out, q.since);
    forall t | (s, t) in SourceOf(s, q, list) && q.since < t <= m ensures HasTime(out, t) {
      var i :| 0 <= i < |list| && Passes(q, list[i]) && list[i].time.value == t;
      var k :| 0 <= k < |out| && out[k].phenomenonTime == m;
      assert out[k] in out;
      var f :| First(q, rows, f) && out[k] == ToObs(q, rows[f]);
      assert rows[f] in rows;
      if list[i] in rows {
        var j :| 0 <= j < |rows| && rows[j] == list[i];
      }
      assert PassingTime(q, rows, t);
      TimeIsKept(q, rows, out, t);
    }
  }

  /** A fetch that ends on a short page hands the ingest core a prefix of the source as it
      stood at the last request, even if it grew under the reader. */
  lemma WholeFetchIsAPrefix(
    s: StreamId, q: Query, lists: seq<seq<Row>>, pageSize: nat, max: int,
    rows: seq<Row>, requests: nat, at: seq<int>, lo: int, hi: nat, out: seq<Observation>)
    requires |lists| == MAX_PAGES && Ended(lists, pageSize, max, rows, ShortPage, requests, at, lo, hi)
    requires Exact(q, rows, out)
    requires requests > 0 ==> var last := lists[requests - 1]; NewestFirst(q, last) && Distinguishable(q, last)
    ensures requests > 0 && G.PrefixFetch(SourceOf(s, q, lists[requests - 1]), s, q.since, out)
  {
    var from := ShortPageReadsATail(lists, pageSize, max, rows, requests, at, lo, hi);
    var last := lists[requests - 1];
    TailIsPrefix(s, q, last, from, rows, out);
  }

  lemma TailIsPrefix(s: StreamId, q: Query, last: seq<Row>, from: nat, rows: seq<Row>, out: seq<Observation>)
    requires NewestFirst(q, last) && Distinguishable(q, last) && Exact(q, rows, out)
    requires from <= |last| && forall r :: r in rows <==> r in last[from..]
    ensures G.PrefixFetch(SourceOf(s, q, last), s, q.since, out)
  {
    assert last[from..|last|] == last[from..];
    SliceIsPrefix(s, q, last, from, |last|, rows, out);
  }

  /** Either none of the rows passes, or no passing row of the list behind place `to` has an
      instant that they lack. */
  predicate NothingCutOff(q: Query, list: seq<Row>, rows: seq<Row>, to: int) {
    || (forall r :: r in rows ==> !Passes(q, r))
    || (forall i :: to <= i < |list| && i >= 0 && Passes(q, list[i]) ==> PassingTime(q, rows, list[i].time.value))
  }

  /** A slice of the list is a prefix of the source if nothing is cut off behind it. */
  lemma SliceIsPrefix(
    s: StreamId, q: Query, last: seq<Row>, from: nat, to: nat, rows: seq<Row>, out: seq<Observation>)
    requires NewestFirst(q, last) && Distinguishable(q, last) && Exact(q, rows, out)
    requires from <= to <= |last| && forall r :: r in rows <==> r in last[from..to]
    requires NothingCutOff(q, last, rows, to)
    ensures G.PrefixFetch(SourceOf(s, q, last), s, q.since, out)
  {
    forall i | 0 <= i < |rows| ensures rows[i] in last {
      assert rows[i] in last[from..to];
    }
    forall i, r | 0 <= i < |last| && Passes(q, last[i]) && r in rows && Passes(q, r)
      ensures last[i] in rows || PassingTime(q, rows, last[i].time.value) || last[i].time.value > r.time.value
    {
      if from <= i < to {
        assert last[from..to][i - from] == last[i];
      } else if i < from {
        var j :| 0 <= j < |last[from..to]| && last[from..to][j] == r;
        assert last[from + j] == r;
        var k :| 0 <= k < |rows| && rows[k] == r;
      }
    }
    NewerUnreadIsAPrefix(s, q, last, rows, out);
  }

  /** Row `i` passes, was cut off behind the first `k` rows, and none of those has its
      instant. */
  predicate CutOff(q: Query, list: seq<Row>, k: nat, i: nat)
    requires k <= |list|
  {
    k <= i < |list| && Passes(q, list[i]) && !PassingTime(q, list[..k], list[i].time.value)
  }

  /** A fetch of the newest `k` rows is a prefix of the source if and only if none of them
      passes, or no passing row with an instant of its own was cut off. */
  lemma CutFetchIsAPrefixIff(s: StreamId, q: Query, list: seq<Row>, k: nat, out: seq<Observation>)
    requires k <= |list| && NewestFirst(q, list) && Distinguishable(q, list)
    requires q.since != ZERO_TIME && Exact(q, list[..k], out)
    ensures G.PrefixFetch(SourceOf(s, q, list), s, q.since, out) <==>
            (forall i :: 0 <= i < k ==> !Passes(q, list[i])) || (forall i :: k <= i < |list| ==> !CutOff(q, list, k, i))
  {
    var rows := list[..k];
    if i :| 0 <= i < k && Passes(q, list[i]) {
      assert rows[i] == list[i];
      if j :| k <= j < |list| && CutOff(q, list, k, j) {
        CutOffIsMissed(s, q, list, k, out, i, j);
      } else {
        NoneCutOff(s, q, list, k, out);
      }
    } else {
      NonePublished(s, q, list, k, out);
    }
  }

  lemma CutOffIsMissed(s: StreamId, q: Query, list: seq<Row>, k: nat, out: seq<Observation>, i: nat, j: nat)
    requires k <= |list| && NewestFirst(q, list) && Distinguishable(q, list)
    requires q.since != ZERO_TIME && Exact(q, list[..k], out)
    requires i < k && Passes(q, list[i]) && CutOff(q, list, k, j)
    ensures !G.PrefixFetch(SourceOf(s, q, list), s, q.since, out)
  {
    var rows, t := list[..k], list[j].time.value;
    assert rows[i] == list[i];
    TimeIsKept(q, rows, out, list[i].time.value);
    TimeIsKept(q, rows, out, t);
    G.MaxTimeIsMax(out, q.since);
    assert PassingTime(q, list, t);
    assert (s, t) in SourceOf(s, q, list);
  }

  lemma NonePublished(s: StreamId, q: Query, list: seq<Row>, k: nat, out: seq<Observation>)
    requires k <= |list| && Exact(q, list[..k], out)
    requires forall i :: 0 <= i < k ==> !Passes(q, list[i])
    ensures G.PrefixFetch(SourceOf(s, q, list), s, q.since, out)
  {
    G.MaxTimeIsMax(out, q.since);
    TimeIsKept(q, list[..k], out, WP.MaxTime(out, q.since));
  }

  lemma NoneCutOff(s: StreamId, q: Query, list: seq<Row>, k: nat, out: seq<Observation>)
    requires k <= |list| && Distinguishable(q, list) && Exact(q, list[..k], out)
    requires forall i :: k <= i < |list| ==> !CutOff(q, list, k, i)
    ensures G.PrefixFetch(SourceOf(s, q, list), s, q.since, out)
  {
    forall t | PassingTime(q, list, t) ensures HasTime(out, t) {
      NotCutOff(q, list, k, t);
      TimeIsKept(q, list[..k], out, t);
    }
  }

  /** A passing instant that was not cut off is among the first `k` rows. */
  lemma NotCutOff(q: Query, list: seq<Row>, k: nat, t: Time)
    requires k <= |list| && PassingTime(q, list, t)
    requires forall i :: k <= i < |list| ==> !CutOff(q, list, k, i)
    ensures PassingTime(q, list[..k], t)
  {
    var i :| 0 <= i < |list| && Passes(q, list[i]) && list[i].time.value == t;
    if i < k {
      assert list[..k][i] == list[i];
    } else {
      assert !CutOff(q, list, k, i);
    }
  }

  /** A limit of one loses the older of two rows. */
  lemma LimitLosesARow(s: StreamId, out: seq<Observation>)
    requires Exact(Query(1, 5, 100, 1), LevelsAt([20]), out)
    ensures var q, list := Query(1, 5, 100, 1), LevelsAt([20, 10]);
            list[..1] == LevelsAt([20]) && !G.PrefixFetch(SourceOf(s, q, list), s, q.since, out)
  {
    var q, list := Query(1, 5, 100, 1), LevelsAt([20, 10]);
    RecentRowsAreDistinguishable(q, list);
    assert list[..1] == LevelsAt([20]);
    assert list[0] == Level(Some(20), Some(Number(50.0)), None) && list[1] == Level(Some(10), Some(Number(50.0)), None);
    assert Passes(q, list[0]) && NewestFirst(q, list);
    assert CutOff(q, list, 1, 1);
    CutOffIsMissed(s, q, list, 1, out, 0, 1);
  }

  /** Two rows 2^64 ns apart, and only the first of them comes out. */
  lemma StampsCollide(out: seq<Observation>)
    requires Exact(Query(1, ZERO_TIME, 2 * TWO_TO_THE_64, 1), LevelsAt([1, 1 + TWO_TO_THE_64]), out)
    ensures HasTime(out, 1) && !HasTime(out, 1 + TWO_TO_THE_64)
  {
    var q, rows := Query(1, ZERO_TIME, 2 * TWO_TO_THE_64, 1), LevelsAt([1, 1 + TWO_TO_THE_64]);
    Int64IsMod(1 - UNIX_EPOCH);
    Int64IsMod(1 + TWO_TO_THE_64 - UNIX_EPOCH);
    assert First(q, rows, 0) && !First(q, rows, 1);
    assert ToObs(q, rows[0]) in out;
    assert HasTime(out, 1);
    forall k | 0 <= k < |out| ensures out[k].phenomenonTime != 1 + TWO_TO_THE_64 {
      assert out[k] in out;
    }
  }

  /** Plain readings at the given instants. */
  function LevelsAt(times: seq<Time>): (rows: seq<Row>)
    ensures |rows| == |times|
    ensures forall i :: 0 <= i < |times| ==> rows[i] == Level(Some(times[i]), Some(Number(50.0)), None)
  {
    seq(|times|, i requires 0 <= i < |times| => Level(Some(times[i]), Some(Number(50.0)), None))
  }

  // ---- Every run over the SULO adapter --------------------------------------------------------

  /** The rows a fetch can return when the clock stands at `now`. */
  ghost predicate IsSuloFetch(fetched: seq<Observation>, now: Time) {
    exists q: Query, rows: seq<Row> :: q.now == now && Exact(q, rows, fetched)
  }

  /** The clock does not run backwards, and fetches are answered by the SULO adapter. */
  ghost predicate FilteredRun(cfg: WP.Config, w: WP.World, es: seq<WP.Event>) {
    forall i :: 0 <= i < |es| ==>
      var cur := WP.Run(cfg, w, es[..i]);
      && (es[i].Tick? ==> es[i].now >= cur.clock)
      && (es[i].Effect? && es[i].a.Fetched? && WP.PhaseOf(cur, es[i].s).Fetching? ==>
            IsSuloFetch(es[i].a.rows, cur.clock))
  }

  lemma FilteredRunHasNoForecast(cfg: WP.Config, w: WP.World, es: seq<WP.Event>)
    requires FilteredRun(cfg, w, es)
    ensures G.NoForecastRun(cfg, w, es)
  {
    forall i | 0 <= i < |es| ensures G.NoForecast(WP.Run(cfg, w, es[..i]), es[i]) {
      var cur := WP.Run(cfg, w, es[..i]);
      if es[i].Effect? && es[i].a.Fetched? && WP.PhaseOf(cur, es[i].s).Fetching? {
        FetchIsBelowClock(es[i].a.rows, cur.clock);
      }
    }
  }

  /** Over SULO no cursor passes the clock. */
  lemma SuloCursorNeverPassesClock(cfg: WP.Config, w: WP.World, es: seq<WP.Event>, s: StreamId)
    requires cfg.lookback >= 0 && A.Fresh(w) && FilteredRun(cfg, w, es)
    ensures var end := WP.Run(cfg, w, es);
            var c := WP.CursorOf(end, s);
            c.Some? ==> c.value <= end.clock
  {
    FilteredRunHasNoForecast(cfg, w, es);
    G.CursorNeverPassesClock(cfg, w, es, s);
  }

  /** A row that was a forecast after `i` events and that the validator now rejects as late
      was not made late by any forecast: the cursor passed it when it had matured, because
      of a row that was fetched, and of the rows fetched with that one none was forgotten. */
  lemma LateForecastHadMatured(
    cfg: WP.Config, w: WP.World, es: seq<WP.Event>, s: StreamId, i: nat, forecast: Observation)
    returns (k: nat)
    requires cfg.lookback >= 0 && A.Fresh(w) && FilteredRun(cfg, w, es)
    requires i <= |es| && forecast.phenomenonTime > WP.Run(cfg, w, es[..i]).clock
    requires var end := WP.Run(cfg, w, es);
             && WP.CursorOf(end, s).Some?
             && V.Validate(forecast, WP.CursorOf(end, s).value, end.clock, cfg.skew) == Some(V.BeforeCursor)
    ensures i <= k < |es| && G.PassedAt(cfg, w, es, s, k, forecast.phenomenonTime)
  {
    FilteredRunHasNoForecast(cfg, w, es);
    assert es[..|es|] == es;
    k := G.ForecastIsPassedLate(cfg, w, es, s, i, |es|, forecast.phenomenonTime);
  }

  lemma FetchIsBelowClock(fetched: seq<Observation>, now: Time)
    requires IsSuloFetch(fetched, now)
    ensures forall o :: o in fetched ==> o.phenomenonTime <= now
  {
  }
}
