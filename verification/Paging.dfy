/** Limit/offset paging over a REEN list that grows at its front while it is being read
    (client.paged, internal/adapters/sulo/client.go). */
module Paging {

  const MAX_PAGES := 200

  /** Why paging ended without an error. */
  datatype Stop = ShortPage | CallerCap | PageCap

  /** `lists[j]` is the server's list when request j reaches it: each has the one before it
      as its tail. */
  ghost predicate GrowsAtFront<Row>(lists: seq<seq<Row>>) {
    forall j :: 0 < j < |lists| ==> IsTail(lists[j - 1], lists[j])
  }

  predicate IsTail<Row(==)>(tail: seq<Row>, whole: seq<Row>) {
    |tail| <= |whole| && whole[|whole| - |tail|..] == tail
  }

  /** The page a server gives for limit and offset. */
  function PageOf<Row>(rows: seq<Row>, offset: nat, limit: nat): (page: seq<Row>)
    ensures |page| <= limit
  {
    if offset >= |rows| then []
    else if offset + limit <= |rows| then rows[offset..offset + limit]
    else rows[offset..]
  }

  /** Where the rows that were read stand: `at[k]` is the place of row k counted from the
      front of the first list, negative for a row added later, and `end` is where the last
      page ended. Of the first list exactly the first `hi` rows were read; of everything
      from place `lo` on, nothing before `end` was missed. */
  ghost predicate Reads<Row>(first: seq<Row>, now: seq<Row>, rows: seq<Row>, at: seq<int>, lo: int, hi: nat, end: int) {
    && |first| <= |now| && end <= hi <= |first|
    && |first| - |now| <= lo <= 0
    && |at| == |rows|
    && (forall k :: 0 <= k < |at| ==> lo <= at[k] < hi && rows[k] == now[at[k] + |now| - |first|])
    && (forall p :: 0 <= p < hi ==> p in at)
    && (forall p :: lo <= p < end ==> p in at)
  }

  /** The places of `n` consecutive rows, the first of them at place `from`. */
  ghost function PositionsFrom(from: int, n: nat): (at: seq<int>)
    ensures |at| == n && forall k :: 0 <= k < n ==> at[k] == from + k
  {
    if n == 0 then [] else PositionsFrom(from, n - 1) + [from + n - 1]
  }

  /** Rows added at the front move nothing that was read. */
  lemma GrowthKeepsReads<Row>(
    first: seq<Row>, before: seq<Row>, now: seq<Row>, rows: seq<Row>, at: seq<int>, lo: int, hi: nat, end: int)
    requires Reads(first, before, rows, at, lo, hi, end) && IsTail(before, now)
    ensures Reads(first, now, rows, at, lo, hi, end)
  {
  }

  /** One more page leaves no hole: it starts at or before the place where the last one
      ended, because the list can only have moved rows back. */
  lemma PageLeavesNoHole<Row>(
    first: seq<Row>, now: seq<Row>, rows: seq<Row>, at: seq<int>, lo: int, hi: nat, end: int, limit: nat)
    returns (at': seq<int>, lo': int, hi': nat, end': int)
    requires Reads(first, now, rows, at, lo, hi, end)
    requires |rows| <= |now| && |rows| - (|now| - |first|) <= end
    ensures var page := PageOf(now, |rows|, limit);
            && Reads(first, now, rows + page, at', lo', hi', end')
            && end' == |rows + page| - (|now| - |first|)
            && (|page| < limit ==> end' == |first|)
  {
    var page, start := PageOf(now, |rows|, limit), |rows| - (|now| - |first|);
    var more := PositionsFrom(start, |page|);
    at', end' := at + more, start + |page|;
    lo', hi' := if start < lo then start else lo, if end' > hi then end' else hi;
    forall p | (0 <= p < hi' && p >= hi) || (lo' <= p < end' && !(lo <= p < end)) ensures p in at' {
      assert more[p - start] == p;
    }
  }

  /** The list as the last of `i` requests saw it. */
  function LastSeen<Row>(lists: seq<seq<Row>>, i: nat): seq<Row>
    requires i <= |lists| && lists != []
  {
    if i == 0 then lists[0] else lists[i - 1]
  }

  /** What `i` requests have read. */
  ghost predicate ReadBy<Row>(lists: seq<seq<Row>>, i: nat, rows: seq<Row>, at: seq<int>, lo: int, hi: nat)
    requires i <= |lists| && lists != []
  {
    var last := LastSeen(lists, i);
    && |rows| <= |last|
    && Reads(lists[0], last, rows, at, lo, hi, |rows| - (|last| - |lists[0]|))
    && (Still(lists) ==> rows <= lists[0])
  }

  ghost predicate Still<Row>(lists: seq<seq<Row>>) {
    forall j :: 0 < j < |lists| ==> lists[j] == lists[0]
  }

  lemma LastIsTail<Row>(lists: seq<seq<Row>>, i: nat)
    requires i < |lists| && GrowsAtFront(lists)
    ensures IsTail(LastSeen(lists, i), lists[i])
  {
    if i > 0 {
      assert IsTail(lists[i - 1], lists[i]);
    }
  }

  lemma StillPage<Row>(lists: seq<seq<Row>>, i: nat, rows: seq<Row>, size: nat)
    requires i < |lists| && Still(lists) && rows <= lists[0]
    ensures rows + PageOf(lists[i], |rows|, size) <= lists[0]
  {
    assert lists[i] == lists[0];
  }

  /** The list may have grown since the last request; the next page leaves no hole either way. */
  lemma PageAfterGrowth<Row>(
    first: seq<Row>, last: seq<Row>, now: seq<Row>, rows: seq<Row>, at: seq<int>, lo: int, hi: nat, size: nat)
    returns (at': seq<int>, lo': int, hi': nat)
    requires IsTail(last, now) && |rows| <= |last|
    requires Reads(first, last, rows, at, lo, hi, |rows| - (|last| - |first|))
    ensures var page := PageOf(now, |rows|, size);
            && |rows + page| <= |now|
            && Reads(first, now, rows + page, at', lo', hi', |rows + page| - (|now| - |first|))
            && (|page| < size ==> |rows + page| == |now|)
  {
    var end, end' := |rows| - (|last| - |first|), 0;
    GrowthKeepsReads(first, last, now, rows, at, lo, hi, end);
    at', lo', hi', end' := PageLeavesNoHole(first, now, rows, at, lo, hi, end, size);
  }

  lemma OneMorePage<Row>(lists: seq<seq<Row>>, i: nat, rows: seq<Row>, at: seq<int>, lo: int, hi: nat, size: nat)
    returns (at': seq<int>, lo': int, hi': nat)
    requires i < |lists| && GrowsAtFront(lists) && ReadBy(lists, i, rows, at, lo, hi)
    ensures var page := PageOf(lists[i], |rows|, size);
            && ReadBy(lists, i + 1, rows + page, at', lo', hi')
            && (|page| < size ==> |rows + page| == |lists[i]|)
  {
    LastIsTail(lists, i);
    at', lo', hi' := PageAfterGrowth(lists[0], LastSeen(lists, i), lists[i], rows, at, lo, hi, size);
    if Still(lists) {
      StillPage(lists, i, rows, size);
    }
  }

  /** What `i` full pages hold. */
  function Full(i: nat, pageSize: nat): nat {
    if i == 0 then 0 else Full(i - 1, pageSize) + pageSize
  }

  lemma {:induction false} FullIsTheProduct(i: nat, pageSize: nat)
    ensures Full(i, pageSize) == i * pageSize
  {
    if i > 0 {
      FullIsTheProduct(i - 1, pageSize);
      assert i * pageSize == (i - 1) * pageSize + pageSize;
    }
  }

  /** What `i` full pages hold under the caller's cap. */
  function Quota(i: nat, pageSize: nat, max: int): nat {
    var full := Full(i, pageSize);
    if max > 0 && max < full then max else full
  }

  function Least(a: nat, b: nat): nat {
    if a < b then a else b
  }

  /** How much the next request asks for; 0 when the caller's cap is reached. */
  function NextSize(total: nat, pageSize: nat, max: int): nat {
    if max <= 0 then pageSize
    else if max <= total then 0
    else Least(max - total, pageSize)
  }

  lemma QuotaStep(i: nat, pageSize: nat, max: int)
    requires max > 0 ==> Quota(i, pageSize, max) < max
    ensures var q := Quota(i, pageSize, max);
            Quota(i + 1, pageSize, max) == q + NextSize(q, pageSize, max)
  {
  }

  /** What paging delivers when it ends without an error after `requests` requests. The rows
      of the first list that were read are its first `hi`. On a short page that is all of
      it, and nothing was missed from the newest row read (place `lo`) to the list's end.
      A list that stands still gives exactly its first
      min(length, max when positive, 200 * pageSize) rows, in order. */
  ghost predicate Ended<Row>(
    lists: seq<seq<Row>>, pageSize: nat, max: int,
    rows: seq<Row>, stop: Stop, requests: nat, at: seq<int>, lo: int, hi: nat)
    requires |lists| == MAX_PAGES
  {
    var all := Quota(|lists|, pageSize, max);
    && requests <= MAX_PAGES
    && ReadBy(lists, requests, rows, at, lo, hi)
    && (stop.ShortPage? ==> requests > 0 && hi == |lists[0]| && |rows| == |lists[requests - 1]|)
    && (stop.CallerCap? ==> max > 0 && |rows| == max)
    && (stop.PageCap? ==> requests == MAX_PAGES && |rows| == all)
    && |rows| <= all
    && (Still(lists) ==> rows == lists[0][..Least(|lists[0]|, all)])
  }

  /** Where the loop stopped, and why. */
  ghost predicate Stopped<Row>(
    lists: seq<seq<Row>>, pageSize: nat, max: int,
    rows: seq<Row>, stop: Stop, i: nat, at: seq<int>, lo: int, hi: nat)
    requires lists != []
  {
    && i <= |lists| && ReadBy(lists, i, rows, at, lo, hi)
    && |rows| <= Quota(i, pageSize, max)
    && match stop
       case ShortPage => i > 0 && |rows| == |lists[i - 1]|
       case CallerCap => max > 0 && |rows| == max
       case PageCap => i == |lists| && |rows| == Quota(i, pageSize, max)
  }

  lemma StoppedMeansEnded<Row>(
    lists: seq<seq<Row>>, pageSize: nat, max: int,
    rows: seq<Row>, stop: Stop, i: nat, at: seq<int>, lo: int, hi: nat)
    requires |lists| == MAX_PAGES && Stopped(lists, pageSize, max, rows, stop, i, at, lo, hi)
    ensures Ended(lists, pageSize, max, rows, stop, i, at, lo, hi)
  {
    FullGrows(i, |lists|, pageSize);
    if Still(lists) {
      assert rows <= lists[0];
    }
  }

  /** One request for `size` rows behind those already read, and its decoding. */
  method ReadPage<Row>(
    lists: seq<seq<Row>>, i: nat, rows: seq<Row>, size: nat, ghost at: seq<int>, ghost lo: int, ghost hi: nat)
    returns (more: seq<Row>, n: nat, ghost at': seq<int>, ghost lo': int, ghost hi': nat)
    requires i < |lists| && GrowsAtFront(lists) && ReadBy(lists, i, rows, at, lo, hi)
    ensures ReadBy(lists, i + 1, more, at', lo', hi')
    ensures |more| == |rows| + n && n <= size
    ensures n < size ==> |more| == |lists[i]|
  {
    var page := PageOf(lists[i], |rows|, size);
    at', lo', hi' := OneMorePage(lists, i, rows, at, lo, hi, size);
    more, n := rows + page, |page|;
  }

  /** The loop of paged, with request j answered from `lists[j]` unless `fails[j]`. */
  method ReadPages<Row>(lists: seq<seq<Row>>, fails: seq<bool>, pageSize: nat, max: int)
    returns (err: bool, rows: seq<Row>, stop: Stop, requests: nat, ghost at: seq<int>, ghost lo: int, ghost hi: nat)
    requires pageSize > 0 && lists != []
    requires |lists| == |fails| && GrowsAtFront(lists)
    ensures requests <= |lists|
    ensures err <==> exists j :: 0 <= j < requests && fails[j]
    ensures !err ==> Stopped(lists, pageSize, max, rows, stop, requests, at, lo, hi)
  {
    err, rows, requests := false, [], 0;
    at, lo, hi := [], 0, 0;
    for i := 0 to |lists|
      invariant requests == i && !err
      invariant forall j :: 0 <= j < i ==> !fails[j]
      invariant |rows| == Quota(i, pageSize, max)
      invariant ReadBy(lists, i, rows, at, lo, hi)
    {
      var size := pageSize;
      if max > 0 {
        var remaining := max - |rows|;
        if remaining <= 0 {
          return false, rows, CallerCap, requests, at, lo, hi;
        }
        if remaining < size {
          size := remaining;
        }
      }
      QuotaStep(i, pageSize, max);
      requests := requests + 1;
      if fails[i] {
        return true, [], PageCap, requests, [], 0, 0;
      }
      var n;
      rows, n, at, lo, hi := ReadPage(lists, i, rows, size, at, lo, hi);
      if n < size {
        return false, rows, ShortPage, requests, at, lo, hi;
      }
    }
    stop := PageCap;
  }

  /** paged: at most 200 requests, one after the other. */
  method Paged<Row>(lists: seq<seq<Row>>, fails: seq<bool>, pageSize: nat, max: int)
    returns (err: bool, rows: seq<Row>, stop: Stop, requests: nat, ghost at: seq<int>, ghost lo: int, ghost hi: nat)
    requires pageSize > 0
    requires |lists| == |fails| == MAX_PAGES && GrowsAtFront(lists)
    ensures requests <= MAX_PAGES
    ensures err <==> exists j :: 0 <= j < requests && fails[j]
    ensures !err ==> Ended(lists, pageSize, max, rows, stop, requests, at, lo, hi)
  {
    err, rows, stop, requests, at, lo, hi := ReadPages(lists, fails, pageSize, max);
    if !err {
      StoppedMeansEnded(lists, pageSize, max, rows, stop, requests, at, lo, hi);
    }
  }

  lemma {:induction false} FullGrows(i: nat, j: nat, pageSize: nat)
    requires i <= j
    ensures Full(i, pageSize) <= Full(j, pageSize)
  {
    if i < j {
      FullGrows(i, j - 1, pageSize);
    }
  }

  /** Place `p` counted from the front of the first list is place p + grown of the last. */
  lemma ReadPlace<Row>(
    first: seq<Row>, last: seq<Row>, rows: seq<Row>, at: seq<int>, lo: int, hi: nat, end: int, p: int)
    requires Reads(first, last, rows, at, lo, hi, end) && p in at
    ensures lo <= p < hi && last[p + |last| - |first|] in rows
  {
    var k :| 0 <= k < |at| && at[k] == p;
    assert rows[k] == last[p + |last| - |first|];
  }

  /** What was read is a slice of the list as it stood at the last request, repeats and all,
      unless it grew by more than had been read. */
  lemma ReadsASlice<Row>(first: seq<Row>, last: seq<Row>, rows: seq<Row>, at: seq<int>, lo: int, hi: nat, end: int)
    requires Reads(first, last, rows, at, lo, hi, end) && end >= 0
    ensures var from, to := lo + |last| - |first|, hi + |last| - |first|;
            forall r :: r in rows <==> r in last[from..to]
  {
    var grown := |last| - |first|;
    var slice := last[lo + grown..hi + grown];
    forall j | 0 <= j < |slice| ensures slice[j] in rows {
      assert lo + j in at;
      ReadPlace(first, last, rows, at, lo, hi, end, lo + j);
    }
    forall k | 0 <= k < |rows| ensures rows[k] in slice {
      assert rows[k] == slice[at[k] - lo];
    }
  }

  lemma PagesReadASlice<Row>(lists: seq<seq<Row>>, requests: nat, rows: seq<Row>, at: seq<int>, lo: int, hi: nat)
    returns (from: nat, to: nat)
    requires lists != [] && requests <= |lists| && ReadBy(lists, requests, rows, at, lo, hi)
    requires |LastSeen(lists, requests)| - |lists[0]| <= |rows|
    ensures var last := LastSeen(lists, requests);
            && from <= to <= |last| && from <= |last| - |lists[0]| && to == hi + |last| - |lists[0]|
            && forall r :: r in rows <==> r in last[from..to]
  {
    var last := LastSeen(lists, requests);
    from, to := lo + |last| - |lists[0]|, hi + |last| - |lists[0]|;
    ReadsASlice(lists[0], last, rows, at, lo, hi, |rows| - (|last| - |lists[0]|));
  }

  /** Stopping on a short page leaves exactly a tail of the list as it stood at the last
      request, however much it grew meanwhile: repeats, but nothing skipped. */
  lemma ShortPageReadsATail<Row>(
    lists: seq<seq<Row>>, pageSize: nat, max: int,
    rows: seq<Row>, requests: nat, at: seq<int>, lo: int, hi: nat)
    returns (from: nat)
    requires |lists| == MAX_PAGES && Ended(lists, pageSize, max, rows, ShortPage, requests, at, lo, hi)
    ensures requests > 0 && from <= |lists[requests - 1]| - |lists[0]|
    ensures forall r :: r in rows <==> r in lists[requests - 1][from..]
  {
    var to;
    from, to := PagesReadASlice(lists, requests, rows, at, lo, hi);
    assert lists[requests - 1][from..to] == lists[requests - 1][from..];
  }
}
