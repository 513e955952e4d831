/** Resending a push batch until it is answered 202 (internal/api/push.go), against the
    idempotent write of each of its observations (internal/ingest/ingest.go): when does it
    leave the write log of one clean run?

    The validator's clock and the targets' permanent refusals are fixed, so the kept
    observations are the same in every request; a request may end without a 202 before or
    after any effect of any of them. */
module Replay {
  import opened Canonical
  import opened Store
  import WP = WritePath

  /** One kept observation of the batch. */
  datatype Item = Item(key: LogKey, o: Observation)

  /** `refuses(i, k)`: target `i` answers every call for `k` with a permanent refusal. */
  datatype Setup = Setup(targets: nat, refuses: (nat, LogKey) -> bool)

  datatype State = State(held: set<(nat, LogKey)>, log: map<LogKey, Observation>)

  /** Where a request broke off: before the log was read, at target `j` (whose create may
      have landed), or at the INSERT (which may have committed). */
  datatype Fault = AtCheck | AtTarget(j: nat, landed: bool) | AtRecord(committed: bool)

  /** A request that got through `stop` of its observations. */
  datatype Request = Request(order: seq<Item>, stop: nat, fault: Fault)

  /** What one stream's kept observations are to the write log. */
  function ItemsOf(s: StreamId, kept: seq<Observation>): (items: seq<Item>)
    ensures |items| == |kept|
    ensures forall i :: 0 <= i < |kept| ==> items[i] == Item(LogKey(s, kept[i].phenomenonTime), kept[i])
  {
    seq(|kept|, i requires 0 <= i < |kept| => Item(LogKey(s, kept[i].phenomenonTime), kept[i]))
  }

  // ---- One observation --------------------------------------------------------------------

  /** What target `i` makes of `k`: the probe's answer, or the create's. */
  function Answer(cfg: Setup, st: State, k: LogKey, i: nat): WP.Reply {
    if cfg.refuses(i, k) then WP.Refused
    else if (i, k) in st.held then WP.Present
    else WP.Created(0)
  }

  function Answers(cfg: Setup, st: State, k: LogKey): (replies: seq<WP.Reply>)
    ensures |replies| == cfg.targets
    ensures forall i :: 0 <= i < cfg.targets ==> replies[i] == Answer(cfg, st, k, i)
  {
    seq(cfg.targets, i requires 0 <= i < cfg.targets => Answer(cfg, st, k, i))
  }

  /** What the first `n` targets hold once they have been served. */
  function Served(cfg: Setup, st: State, k: LogKey, n: nat): State {
    st.(held := st.held + set i: nat | i < n && i < cfg.targets && !cfg.refuses(i, k) :: (i, k))
  }

  /** writeObservation without a transient failure. */
  function Write(cfg: Setup, st: State, it: Item): State {
    if it.key in st.log then st
    else
      var served := Served(cfg, st, it.key, cfg.targets);
      if WP.Dropped(Answers(cfg, st, it.key)) then served
      else served.(log := st.log[it.key := it.o])
  }

  /** writeObservation broken off. */
  function Break(cfg: Setup, st: State, it: Item, f: Fault): State {
    if it.key in st.log then st
    else
      match f
      case AtCheck => st
      case AtTarget(j, landed) => Served(cfg, st, it.key, if landed then j + 1 else j)
      case AtRecord(committed) =>
        if committed then Write(cfg, st, it) else Served(cfg, st, it.key, cfg.targets)
  }

  // ---- Whole requests -------------------------------------------------------------------------

  function Process(cfg: Setup, st: State, items: seq<Item>): State {
    if items == [] then st else Write(cfg, Process(cfg, st, items[..|items| - 1]), items[|items| - 1])
  }

  function Attempt(cfg: Setup, st: State, r: Request): State {
    if r.stop < |r.order| then Break(cfg, Process(cfg, st, r.order[..r.stop]), r.order[r.stop], r.fault)
    else Process(cfg, st, r.order)
  }

  /** The requests that were not answered 202, one after the other. */
  function AfterFailures(cfg: Setup, st: State, rs: seq<Request>): State {
    if rs == [] then st else Attempt(cfg, AfterFailures(cfg, st, rs[..|rs| - 1]), rs[|rs| - 1])
  }

  /** The first observation of a key. */
  function FirstOf(items: seq<Item>, k: LogKey): Option<Observation> {
    if items == [] then None
    else
      var first := FirstOf(items[..|items| - 1], k);
      if first.None? && items[|items| - 1].key == k then Some(items[|items| - 1].o) else first
  }

  /** The same observations in another order of their streams: the first one of every key
      stays first. */
  ghost predicate Arrangement(order: seq<Item>, items: seq<Item>) {
    forall k :: FirstOf(order, k) == FirstOf(items, k)
  }

  ghost predicate Arrangements(rs: seq<Request>, items: seq<Item>) {
    forall i :: 0 <= i < |rs| ==> Arrangement(rs[i].order, items)
  }

  predicate SomeRefuse(cfg: Setup, k: LogKey) {
    exists i :: 0 <= i < cfg.targets && cfg.refuses(i, k)
  }

  /** Some targets refuse `k` and others take it. */
  predicate Mixed(cfg: Setup, k: LogKey) {
    SomeRefuse(cfg, k) && exists i :: 0 <= i < cfg.targets && !cfg.refuses(i, k)
  }

  /** Every target that takes `k` already holds it. */
  predicate HeldWhereTaken(cfg: Setup, st: State, k: LogKey) {
    forall i: nat :: i < cfg.targets && !cfg.refuses(i, k) ==> (i, k) in st.held
  }

  /** Before the first request, a mixed key is logged already, or cannot be created anywhere
      any more. In particular when no key is mixed. */
  predicate MixedSettled(cfg: Setup, st: State, items: seq<Item>) {
    forall it :: it in items && Mixed(cfg, it.key) ==> it.key in st.log || HeldWhereTaken(cfg, st, it.key)
  }

  // ---- Keys on which nothing is open ------------------------------------------------------------

  lemma FirstOfMember(items: seq<Item>, p: nat)
    requires p < |items|
    ensures FirstOf(items, items[p].key).Some?
  {
  }

  lemma {:induction false} FirstOfPrefix(items: seq<Item>, p: nat, k: LogKey)
    requires p <= |items|
    ensures FirstOf(items[..p], k).Some? ==> FirstOf(items, k) == FirstOf(items[..p], k)
  {
    if p == |items| {
      assert items[..p] == items;
    } else {
      assert items[..|items| - 1][..p] == items[..p];
      FirstOfPrefix(items[..|items| - 1], p, k);
    }
  }

  lemma {:induction false} FirstOfIsMember(items: seq<Item>, k: LogKey) returns (p: nat)
    requires FirstOf(items, k).Some?
    ensures p < |items| && items[p] == Item(k, FirstOf(items, k).value)
    ensures forall q :: 0 <= q < p ==> items[q].key != k
  {
    var n := |items| - 1;
    if FirstOf(items[..n], k).Some? {
      p := FirstOfIsMember(items[..n], k);
    } else {
      p := n;
      forall q | 0 <= q < n ensures items[q].key != k {
        if items[q].key == k { FirstOfMember(items[..n], q); }
      }
    }
  }

  /** Unless a target could still create it, an observation is dropped exactly when some
      target refuses it. */
  lemma DroppedIffRefused(cfg: Setup, st: State, k: LogKey)
    requires Mixed(cfg, k) ==> HeldWhereTaken(cfg, st, k)
    ensures WP.Dropped(Answers(cfg, st, k)) <==> SomeRefuse(cfg, k)
  {
    var replies := Answers(cfg, st, k);
    if i :| 0 <= i < cfg.targets && cfg.refuses(i, k) {
      assert replies[i] == WP.Refused;
      assert forall j :: 0 <= j < |replies| ==> !replies[j].Created?;
    } else {
      assert forall i :: 0 <= i < |replies| ==> replies[i] != WP.Refused;
    }
  }

  /** What failed requests can have done: nothing is undone, and a key of the batch is
      logged only with its first observation, and only if no target refuses it. */
  ghost predicate Sound(cfg: Setup, st0: State, items: seq<Item>, st: State) {
    && st0.held <= st.held
    && (forall k :: k in st0.log ==> k in st.log && st.log[k] == st0.log[k])
    && (forall k :: k in st.log && k !in st0.log ==>
          !SomeRefuse(cfg, k) && FirstOf(items, k) == Some(st.log[k]))
  }

  /** The first `p` observations are logged, or refused by some target. */
  predicate Dealt(cfg: Setup, st: State, order: seq<Item>, p: nat)
    requires p <= |order|
  {
    forall q :: 0 <= q < p ==> order[q].key in st.log || SomeRefuse(cfg, order[q].key)
  }

  lemma WriteIsSound(cfg: Setup, st0: State, items: seq<Item>, st: State, order: seq<Item>, p: nat)
    requires MixedSettled(cfg, st0, items) && Arrangement(order, items) && p < |order|
    requires Sound(cfg, st0, items, st) && Dealt(cfg, st, order, p)
    ensures Sound(cfg, st0, items, Write(cfg, st, order[p]))
    ensures Dealt(cfg, Write(cfg, st, order[p]), order, p + 1)
  {
    var it := order[p];
    FirstOfMember(order, p);
    var f := FirstOfIsMember(items, it.key);
    assert items[f] in items;
    if it.key !in st.log {
      DroppedIffRefused(cfg, st, it.key);
      if !SomeRefuse(cfg, it.key) {
        var g := FirstOfIsMember(order, it.key);
        assert g == p;
      }
    }
  }

  lemma BreakIsSound(cfg: Setup, st0: State, items: seq<Item>, st: State, order: seq<Item>, p: nat, f: Fault)
    requires MixedSettled(cfg, st0, items) && Arrangement(order, items) && p < |order|
    requires Sound(cfg, st0, items, st) && Dealt(cfg, st, order, p)
    ensures Sound(cfg, st0, items, Break(cfg, st, order[p], f))
  {
    WriteIsSound(cfg, st0, items, st, order, p);
  }

  lemma {:induction false} ProcessIsSound(cfg: Setup, st0: State, items: seq<Item>, st: State, order: seq<Item>, p: nat)
    requires MixedSettled(cfg, st0, items) && Arrangement(order, items) && p <= |order|
    requires Sound(cfg, st0, items, st)
    ensures Sound(cfg, st0, items, Process(cfg, st, order[..p]))
    ensures Dealt(cfg, Process(cfg, st, order[..p]), order, p)
  {
    if p > 0 {
      assert order[..p][..p - 1] == order[..p - 1];
      ProcessIsSound(cfg, st0, items, st, order, p - 1);
      WriteIsSound(cfg, st0, items, Process(cfg, st, order[..p - 1]), order, p - 1);
    }
  }

  lemma AttemptIsSound(cfg: Setup, st0: State, items: seq<Item>, st: State, r: Request)
    requires MixedSettled(cfg, st0, items) && Arrangement(r.order, items)
    requires Sound(cfg, st0, items, st)
    ensures Sound(cfg, st0, items, Attempt(cfg, st, r))
  {
    if r.stop < |r.order| {
      ProcessIsSound(cfg, st0, items, st, r.order, r.stop);
      BreakIsSound(cfg, st0, items, Process(cfg, st, r.order[..r.stop]), r.order, r.stop, r.fault);
    } else {
      ProcessIsSound(cfg, st0, items, st, r.order, |r.order|);
      assert r.order[..|r.order|] == r.order;
    }
  }

  lemma {:induction false} FailuresAreSound(cfg: Setup, st0: State, items: seq<Item>, rs: seq<Request>)
    requires MixedSettled(cfg, st0, items) && Arrangements(rs, items)
    ensures Sound(cfg, st0, items, AfterFailures(cfg, st0, rs))
  {
    if rs != [] {
      var n := |rs| - 1;
      FailuresAreSound(cfg, st0, items, rs[..n]);
      AttemptIsSound(cfg, st0, items, AfterFailures(cfg, st0, rs[..n]), rs[n]);
    }
  }

  /** A request that goes through logs exactly the keys that no target refuses, each with
      its first observation, beside those that were logged before. */
  lemma CleanLog(cfg: Setup, st0: State, items: seq<Item>, st: State, order: seq<Item>)
    requires MixedSettled(cfg, st0, items) && Arrangement(order, items)
    requires Sound(cfg, st0, items, st)
    ensures var end := Process(cfg, st, order);
            && Sound(cfg, st0, items, end)
            && forall k :: k in end.log <==> k in st0.log || (FirstOf(items, k).Some? && !SomeRefuse(cfg, k))
  {
    ProcessIsSound(cfg, st0, items, st, order, |order|);
    assert order[..|order|] == order;
    var end := Process(cfg, st, order);
    forall k | FirstOf(items, k).Some? && !SomeRefuse(cfg, k) ensures k in end.log {
      var p := FirstOfIsMember(order, k);
    }
  }

  /** If no mixed key is open, resending converges to the clean run. */
  lemma ResendIsClean(cfg: Setup, st0: State, items: seq<Item>, rs: seq<Request>, order: seq<Item>)
    requires MixedSettled(cfg, st0, items) && Arrangements(rs, items) && Arrangement(order, items)
    ensures Process(cfg, AfterFailures(cfg, st0, rs), order).log == Process(cfg, st0, items).log
  {
    FailuresAreSound(cfg, st0, items, rs);
    CleanLog(cfg, st0, items, AfterFailures(cfg, st0, rs), order);
    CleanLog(cfg, st0, items, st0, items);
    var a, b := Process(cfg, AfterFailures(cfg, st0, rs), order), Process(cfg, st0, items);
    forall k ensures k in a.log <==> k in b.log {}
    forall k | k in a.log ensures a.log[k] == b.log[k] {
      if k in st0.log {
        assert a.log[k] == st0.log[k] && b.log[k] == st0.log[k];
      } else {
        assert FirstOf(items, k) == Some(a.log[k]) && FirstOf(items, k) == Some(b.log[k]);
      }
    }
  }

  // ---- Open mixed keys ----------------------------------------------------------------------------

  lemma {:induction false} OtherKeysUntouched(cfg: Setup, st: State, items: seq<Item>, k: LogKey)
    requires forall it :: it in items ==> it.key != k
    ensures var end := Process(cfg, st, items);
            && (k in end.log <==> k in st.log)
            && forall i: nat :: (i, k) in end.held <==> (i, k) in st.held
  {
    if items != [] {
      var n := |items| - 1;
      assert items[n] in items;
      OtherKeysUntouched(cfg, st, items[..n], k);
    }
  }

  /** Once every target that takes `k` holds it, but the row is missing, `k` is dropped. */
  predicate Stuck(cfg: Setup, st: State, k: LogKey) {
    k !in st.log && HeldWhereTaken(cfg, st, k)
  }

  lemma WriteLeavesStuck(cfg: Setup, st: State, it: Item, k: LogKey)
    requires Mixed(cfg, k) && Stuck(cfg, st, k)
    ensures Stuck(cfg, Write(cfg, st, it), k)
  {
    if it.key == k {
      DroppedIffRefused(cfg, st, k);
    }
  }

  lemma {:induction false} StuckStaysStuck(cfg: Setup, st: State, items: seq<Item>, k: LogKey)
    requires Mixed(cfg, k) && Stuck(cfg, st, k)
    ensures Stuck(cfg, Process(cfg, st, items), k)
  {
    if items != [] {
      var n := |items| - 1;
      StuckStaysStuck(cfg, st, items[..n], k);
      WriteLeavesStuck(cfg, Process(cfg, st, items[..n]), items[n], k);
    }
  }

  lemma AttemptLeavesStuck(cfg: Setup, st: State, r: Request, k: LogKey)
    requires Mixed(cfg, k) && Stuck(cfg, st, k)
    ensures Stuck(cfg, Attempt(cfg, st, r), k)
  {
    if r.stop < |r.order| {
      StuckStaysStuck(cfg, st, r.order[..r.stop], k);
      WriteLeavesStuck(cfg, Process(cfg, st, r.order[..r.stop]), r.order[r.stop], k);
    } else {
      StuckStaysStuck(cfg, st, r.order, k);
    }
  }

  /** No request of any content gets it out of there, failed or not. */
  lemma {:induction false} FailuresLeaveStuck(cfg: Setup, st: State, rs: seq<Request>, k: LogKey)
    requires Mixed(cfg, k) && Stuck(cfg, st, k)
    ensures Stuck(cfg, AfterFailures(cfg, st, rs), k)
  {
    if rs != [] {
      var n := |rs| - 1;
      FailuresLeaveStuck(cfg, st, rs[..n], k);
      AttemptLeavesStuck(cfg, AfterFailures(cfg, st, rs[..n]), rs[n], k);
    }
  }

  lemma {:induction false} FailuresAppend(cfg: Setup, st: State, rs: seq<Request>, more: seq<Request>)
    ensures AfterFailures(cfg, st, rs + more) == AfterFailures(cfg, AfterFailures(cfg, st, rs), more)
  {
    if more == [] {
      assert rs + more == rs;
    } else {
      assert (rs + more)[..|rs + more| - 1] == rs + more[..|more| - 1];
      FailuresAppend(cfg, st, rs, more[..|more| - 1]);
    }
  }

  lemma {:induction false} LoggedStaysLogged(cfg: Setup, st: State, items: seq<Item>, k: LogKey)
    requires k in st.log
    ensures k in Process(cfg, st, items).log
  {
    if items != [] {
      LoggedStaysLogged(cfg, st, items[..|items| - 1], k);
    }
  }

  lemma {:induction false} ProcessAppend(cfg: Setup, st: State, a: seq<Item>, b: seq<Item>)
    ensures Process(cfg, st, a + b) == Process(cfg, Process(cfg, st, a), b)
  {
    if b == [] {
      assert a + b == a;
    } else {
      assert (a + b)[..|a + b| - 1] == a + b[..|b| - 1];
      ProcessAppend(cfg, st, a, b[..|b| - 1]);
    }
  }

  /** Row `p` is the first of a mixed key that is not logged, and that some target lacks
      although it would take it. */
  predicate OpenMixed(cfg: Setup, st: State, items: seq<Item>, p: nat)
    requires p < |items|
  {
    var k := items[p].key;
    && Mixed(cfg, k) && k !in st.log && !HeldWhereTaken(cfg, st, k)
    && forall q :: 0 <= q < p ==> items[q].key != k
  }

  /** A clean run logs such a key: the missing target gets a fresh create. */
  lemma OpenMixedIsLoggedCleanly(cfg: Setup, st: State, items: seq<Item>, p: nat)
    requires p < |items| && OpenMixed(cfg, st, items, p)
    ensures items[p].key in Process(cfg, st, items).log
  {
    var k, before := items[p].key, Process(cfg, st, items[..p]);
    OtherKeysUntouched(cfg, st, items[..p], k);
    var i: nat :| i < cfg.targets && !cfg.refuses(i, k) && (i, k) !in st.held;
    assert Answers(cfg, before, k)[i].Created?;
    assert items == items[..p] + ([items[p]] + items[p + 1..]);
    ProcessAppend(cfg, st, items[..p], [items[p]] + items[p + 1..]);
    ProcessOneMore(cfg, before, items[p], items[p + 1..]);
    LoggedStaysLogged(cfg, Write(cfg, before, items[p]), items[p + 1..], k);
  }

  lemma ProcessOneMore(cfg: Setup, st: State, it: Item, rest: seq<Item>)
    ensures Process(cfg, st, [it] + rest) == Process(cfg, Write(cfg, st, it), rest)
  {
    assert [it][..0] == [];
    ProcessAppend(cfg, st, [it], rest);
  }

  /** A failed INSERT of such a key loses it for good: whatever requests follow, they find it
      on every target that takes it, create nothing, and drop it because of the one that
      refuses. */
  lemma OpenMixedIsLostByOneFailure(
    cfg: Setup, st: State, items: seq<Item>, p: nat, more: seq<Request>, order: seq<Item>)
    requires p < |items| && OpenMixed(cfg, st, items, p)
    ensures var failed := Request(items, p, AtRecord(false));
            items[p].key !in Process(cfg, AfterFailures(cfg, st, [failed] + more), order).log
  {
    var k, failed := items[p].key, Request(items, p, AtRecord(false));
    assert [failed][..0] == [];
    OtherKeysUntouched(cfg, st, items[..p], k);
    assert AfterFailures(cfg, st, [failed]) == Attempt(cfg, st, failed);
    FailuresAppend(cfg, st, [failed], more);
    FailuresLeaveStuck(cfg, Attempt(cfg, st, failed), more, k);
    StuckStaysStuck(cfg, AfterFailures(cfg, Attempt(cfg, st, failed), more), order, k);
  }

  lemma OneFailureShows(cfg: Setup, st: State, items: seq<Item>, p: nat)
    requires p < |items| && OpenMixed(cfg, st, items, p)
    ensures var rs := [Request(items, p, AtRecord(false))];
            && Arrangements(rs, items)
            && items[p].key !in Process(cfg, AfterFailures(cfg, st, rs), items).log
  {
    var rs := [Request(items, p, AtRecord(false))];
    assert rs + [] == rs;
    OpenMixedIsLostByOneFailure(cfg, st, items, p, [], items);
  }

  /** A batch whose mixed keys are not all settled has a first row of an open one. */
  lemma FirstOpenMixed(cfg: Setup, st: State, items: seq<Item>) returns (p: nat)
    requires !MixedSettled(cfg, st, items)
    ensures p < |items| && OpenMixed(cfg, st, items, p)
  {
    var it :| it in items && Mixed(cfg, it.key) && it.key !in st.log && !HeldWhereTaken(cfg, st, it.key);
    var q :| 0 <= q < |items| && items[q] == it;
    FirstOfMember(items, q);
    p := FirstOfIsMember(items, it.key);
  }

  /** From any state of targets and log, whatever breaks off and in whatever order the
      streams are taken, the log ends up as one clean run leaves it — if and only if every
      mixed key of the batch is already logged, or held by every target that takes it. */
  lemma ResendIsCleanIff(cfg: Setup, st: State, items: seq<Item>)
    ensures (forall rs: seq<Request>, order: seq<Item> :: Arrangements(rs, items) && Arrangement(order, items) ==>
               Process(cfg, AfterFailures(cfg, st, rs), order).log == Process(cfg, st, items).log)
            <==> MixedSettled(cfg, st, items)
  {
    if MixedSettled(cfg, st, items) {
      forall rs: seq<Request>, order: seq<Item> | Arrangements(rs, items) && Arrangement(order, items)
        ensures Process(cfg, AfterFailures(cfg, st, rs), order).log == Process(cfg, st, items).log
      {
        ResendIsClean(cfg, st, items, rs, order);
      }
    } else {
      var p := FirstOpenMixed(cfg, st, items);
      OneFailureShows(cfg, st, items, p);
      OpenMixedIsLoggedCleanly(cfg, st, items, p);
      assert Arrangement(items, items);
    }
  }
}
