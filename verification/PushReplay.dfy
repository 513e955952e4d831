/** Resending a whole push batch, with its groups taken in whatever order the map gives
    them: the observations the validator keeps, in the order a request writes them, are an
    arrangement in the sense of Replay. */
module PushReplay {
  import opened Canonical
  import opened Store
  import opened Push
  import opened Replay
  import V = Validator

  /** A batch as every resend sees it: the same rows, streams, clock and skew. */
  datatype Sent = Sent(obs: seq<Observation>, streams: map<string, StreamId>, clock: Time, skew: int)

  /** Different stream keys are different rows of the store. */
  predicate OwnRows(b: Sent) {
    forall j, k :: j in b.streams && k in b.streams && b.streams[j] == b.streams[k] ==> j == k
  }

  /** What ProcessStream writes for one group, with the cursor rule off. */
  function GroupItems(b: Sent, key: string): seq<Item>
    requires key in b.streams
  {
    ItemsOf(b.streams[key], V.Kept(GroupOf(b.obs, key), ZERO_TIME, b.clock, b.skew))
  }

  /** What a request writes when it takes the groups in the order `keys`. */
  function OrderOf(b: Sent, keys: seq<string>): seq<Item>
    requires forall k :: k in keys ==> k in b.streams
  {
    if keys == [] then [] else OrderOf(b, keys[..|keys| - 1]) + GroupItems(b, keys[|keys| - 1])
  }

  /** One pass of a map's iteration: every stream once. Groups are never empty, but a
      stream without observations contributes nothing either way. */
  ghost predicate Enumerates(b: Sent, keys: seq<string>) {
    && (forall k :: k in keys <==> k in b.streams)
    && (forall i, j :: 0 <= i < j < |keys| ==> keys[i] != keys[j])
  }

  lemma {:induction false} FirstOfConcat(a: seq<Item>, c: seq<Item>, k: LogKey)
    ensures FirstOf(a + c, k) == if FirstOf(a, k).Some? then FirstOf(a, k) else FirstOf(c, k)
  {
    if c == [] {
      assert a + c == a;
    } else {
      var n := |c| - 1;
      assert (a + c)[..|a + c| - 1] == a + c[..n];
      FirstOfConcat(a, c[..n], k);
    }
  }

  lemma {:induction false} NoItemNoFirst(items: seq<Item>, k: LogKey)
    requires forall i :: 0 <= i < |items| ==> items[i].key != k
    ensures FirstOf(items, k).None?
  {
    if items != [] {
      NoItemNoFirst(items[..|items| - 1], k);
    }
  }

  /** Streams that are not taken have no first observation. */
  lemma {:induction false} UntakenHasNoFirst(b: Sent, keys: seq<string>, k: LogKey)
    requires forall key :: key in keys ==> key in b.streams && b.streams[key] != k.stream
    ensures FirstOf(OrderOf(b, keys), k).None?
  {
    if keys != [] {
      var n := |keys| - 1;
      assert keys[n] in keys;
      UntakenHasNoFirst(b, keys[..n], k);
      NoItemNoFirst(GroupItems(b, keys[n]), k);
      FirstOfConcat(OrderOf(b, keys[..n]), GroupItems(b, keys[n]), k);
    }
  }

  /** The first observation of a key is the first in its own group, wherever that comes. */
  lemma {:induction false} FirstIsTheGroups(b: Sent, keys: seq<string>, key: string, t: Time)
    requires OwnRows(b) && key in keys
    requires forall k :: k in keys ==> k in b.streams
    requires forall i, j :: 0 <= i < j < |keys| ==> keys[i] != keys[j]
    ensures FirstOf(OrderOf(b, keys), LogKey(b.streams[key], t)) ==
            FirstOf(GroupItems(b, key), LogKey(b.streams[key], t))
  {
    var n := |keys| - 1;
    var k, init := LogKey(b.streams[key], t), keys[..n];
    assert keys[n] in keys;
    FirstOfConcat(OrderOf(b, init), GroupItems(b, keys[n]), k);
    if key == keys[n] {
      UntakenHasNoFirst(b, init, k);
    } else {
      FirstIsTheGroups(b, init, key, t);
      NoItemNoFirst(GroupItems(b, keys[n]), k);
    }
  }

  /** Any two iteration orders write arrangements of the same observations. */
  lemma OrdersAreArrangements(b: Sent, keys: seq<string>, others: seq<string>)
    requires OwnRows(b) && Enumerates(b, keys) && Enumerates(b, others)
    ensures Arrangement(OrderOf(b, keys), OrderOf(b, others))
  {
    forall k ensures FirstOf(OrderOf(b, keys), k) == FirstOf(OrderOf(b, others), k) {
      if key :| key in b.streams && b.streams[key] == k.stream {
        FirstIsTheGroups(b, keys, key, k.time);
        FirstIsTheGroups(b, others, key, k.time);
      } else {
        UntakenHasNoFirst(b, keys, k);
        UntakenHasNoFirst(b, others, k);
      }
    }
  }

  /** Every request takes the groups in some order of its own. */
  ghost predicate AnyOrders(b: Sent, rs: seq<Request>) {
    forall i :: 0 <= i < |rs| ==> exists keys :: Enumerates(b, keys) && rs[i].order == OrderOf(b, keys)
  }

  /** Every resend that ends in a 202 leaves the write log of one clean request. */
  ghost predicate AlwaysClean(cfg: Setup, st: State, b: Sent, keys: seq<string>)
    requires Enumerates(b, keys)
  {
    forall rs: seq<Request>, again: seq<string> :: AnyOrders(b, rs) && Enumerates(b, again) ==>
      Process(cfg, AfterFailures(cfg, st, rs), OrderOf(b, again)).log == Process(cfg, st, OrderOf(b, keys)).log
  }

  lemma SettledBatchIsClean(cfg: Setup, st: State, b: Sent, keys: seq<string>)
    requires OwnRows(b) && Enumerates(b, keys) && MixedSettled(cfg, st, OrderOf(b, keys))
    ensures AlwaysClean(cfg, st, b, keys)
  {
    forall rs: seq<Request>, again: seq<string> | AnyOrders(b, rs) && Enumerates(b, again)
      ensures Process(cfg, AfterFailures(cfg, st, rs), OrderOf(b, again)).log == Process(cfg, st, OrderOf(b, keys)).log
    {
      AnyOrdersAreArrangements(b, rs, keys);
      OrdersAreArrangements(b, again, keys);
      ResendIsClean(cfg, st, OrderOf(b, keys), rs, OrderOf(b, again));
    }
  }

  lemma OpenBatchIsNotClean(cfg: Setup, st: State, b: Sent, keys: seq<string>)
    requires Enumerates(b, keys) && !MixedSettled(cfg, st, OrderOf(b, keys))
    ensures !AlwaysClean(cfg, st, b, keys)
  {
    var items := OrderOf(b, keys);
    var p := FirstOpenMixed(cfg, st, items);
    OneFailureShows(cfg, st, items, p);
    OpenMixedIsLoggedCleanly(cfg, st, items, p);
    var rs := [Request(items, p, AtRecord(false))];
    assert rs[0].order == OrderOf(b, keys);
    assert AnyOrders(b, rs);
  }

  /** A batch that is resent until it is answered 202, its requests breaking off anywhere
      and iterating their groups in any order, leaves the write log of one clean request —
      the same keys with the same values — if and only if every kept key that some targets
      refuse and others take is already logged, or held by every target that takes it. */
  lemma ResentBatchIsCleanIff(cfg: Setup, st: State, b: Sent, keys: seq<string>)
    requires OwnRows(b) && Enumerates(b, keys)
    ensures AlwaysClean(cfg, st, b, keys) <==> MixedSettled(cfg, st, OrderOf(b, keys))
  {
    if MixedSettled(cfg, st, OrderOf(b, keys)) {
      SettledBatchIsClean(cfg, st, b, keys);
    } else {
      OpenBatchIsNotClean(cfg, st, b, keys);
    }
  }

  lemma AnyOrdersAreArrangements(b: Sent, rs: seq<Request>, keys: seq<string>)
    requires OwnRows(b) && Enumerates(b, keys) && AnyOrders(b, rs)
    ensures Arrangements(rs, OrderOf(b, keys))
  {
    forall i | 0 <= i < |rs| ensures Arrangement(rs[i].order, OrderOf(b, keys)) {
      var own :| Enumerates(b, own) && rs[i].order == OrderOf(b, own);
      OrdersAreArrangements(b, own, keys);
    }
  }
}
