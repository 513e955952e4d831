/** Why streams resolve Datastreams of their own: each stream asks every target for a
    Datastream under a name of its own, and on one target no id is ever handed out for two
    names. */
module Ownership {
  import opened Canonical
  import opened Store
  import U = Upsert
  import WP = WritePath

  /** In every run of a target's upserts an id belongs to one entity and name. */
  lemma IdsAreNotShared(w: U.World, es: seq<U.Event>, a: U.Req, b: U.Req, id: int)
    requires U.Fresh(w)
    requires (a, id) in U.Run(w, es).returned && (b, id) in U.Run(w, es).returned
    ensures a == b
  {
    U.RunKeepsInv(w, es);
    assert U.Names(U.Run(w, es), a, id) && U.Names(U.Run(w, es), b, id);
  }

  /** One target: its name and what its upserts have ever returned. */
  datatype Target = Target(name: WP.Label, returned: set<(U.Req, int)>)

  /** The target's writer has only run the upsert algorithm. */
  ghost predicate Reachable(t: Target) {
    exists w: U.World, es: seq<U.Event> :: U.Fresh(w) && U.Run(w, es).returned == t.returned
  }

  predicate DistinctLabels(targets: seq<Target>) {
    forall i, j :: 0 <= i < j < |targets| ==> targets[i].name != targets[j].name
  }

  /** Different streams have different Datastream names. */
  predicate DistinctNames(names: map<StreamId, U.Req>) {
    forall s, o :: s in names && o in names && names[s] == names[o] ==> s == o
  }

  /** Stream `s` got `ids[i]` for its own name from target i. */
  predicate Resolves(targets: seq<Target>, names: map<StreamId, U.Req>, s: StreamId, ids: seq<WP.StaId>) {
    s in names && |ids| == |targets| && forall i :: 0 <= i < |targets| ==> (names[s], ids[i]) in targets[i].returned
  }

  function Labels(targets: seq<Target>): (labels: seq<WP.Label>)
    ensures |labels| == |targets| && forall i :: 0 <= i < |targets| ==> labels[i] == targets[i].name
  {
    seq(|targets|, i requires 0 <= i < |targets| => targets[i].name)
  }

  lemma OneOwner(targets: seq<Target>, names: map<StreamId, U.Req>, i: nat, s: StreamId, o: StreamId, id: int)
    requires i < |targets| && Reachable(targets[i]) && DistinctNames(names) && s in names && o in names
    requires (names[s], id) in targets[i].returned && (names[o], id) in targets[i].returned
    ensures s == o
  {
    var w: U.World, es: seq<U.Event> :| U.Fresh(w) && U.Run(w, es).returned == targets[i].returned;
    IdsAreNotShared(w, es, names[s], names[o], id);
  }

  /** What the targets have returned fixes an owner for every id a stream can resolve. */
  lemma OwnersExist(targets: seq<Target>, names: map<StreamId, U.Req>, skew: int, lookback: int) returns (cfg: WP.Config)
    requires DistinctLabels(targets) && DistinctNames(names)
    requires forall i :: 0 <= i < |targets| ==> Reachable(targets[i])
    ensures cfg.labels == Labels(targets) && cfg.skew == skew && cfg.lookback == lookback
    ensures forall s, ids :: Resolves(targets, names, s, ids) ==> WP.OwnIds(cfg, s, ids)
  {
    var owner := OwnerMap(targets, names, |targets|);
    cfg := WP.Config(Labels(targets), skew, lookback, owner);
    forall s, ids | Resolves(targets, names, s, ids) ensures WP.OwnIds(cfg, s, ids) {
      forall i | 0 <= i < |targets|
        ensures (WP.LabelAt(cfg, i), WP.IdAt(ids, i)) in owner && owner[(WP.LabelAt(cfg, i), WP.IdAt(ids, i))] == s
      {
        assert (names[s], ids[i]) in targets[i].returned;
      }
    }
  }

  /** The owners of the ids of one target. */
  lemma OwnersOfOne(targets: seq<Target>, names: map<StreamId, U.Req>, i: nat) returns (owner: map<WP.StaId, StreamId>)
    requires i < |targets| && Reachable(targets[i]) && DistinctNames(names)
    ensures forall s, id :: s in names && (names[s], id) in targets[i].returned ==> id in owner && owner[id] == s
  {
    var returned := targets[i].returned;
    forall s, o, id | s in names && o in names && (names[s], id) in returned && (names[o], id) in returned
      ensures s == o
    {
      OneOwner(targets, names, i, s, o, id);
    }
    owner := map s, p | s in names && p in returned && p.0 == names[s] :: p.1 := s;
    forall s, id | s in names && (names[s], id) in returned ensures id in owner && owner[id] == s {
      assert (names[s], id).0 == names[s];
    }
  }

  /** The owners of the ids of the first `n` targets. */
  lemma OwnerMap(targets: seq<Target>, names: map<StreamId, U.Req>, n: nat) returns (owner: map<(WP.Label, WP.StaId), StreamId>)
    requires n <= |targets| && DistinctLabels(targets) && DistinctNames(names)
    requires forall i :: 0 <= i < |targets| ==> Reachable(targets[i])
    ensures forall i, s, id :: 0 <= i < n && s in names && (names[s], id) in targets[i].returned ==>
              (targets[i].name, id) in owner && owner[(targets[i].name, id)] == s
  {
    if n == 0 {
      owner := map[];
    } else {
      var before := OwnerMap(targets, names, n - 1);
      var one := OwnersOfOne(targets, names, n - 1);
      var here := map id | id in one :: (targets[n - 1].name, id) := one[id];
      owner := before + here;
      forall i, s, id | 0 <= i < n && s in names && (names[s], id) in targets[i].returned
        ensures (targets[i].name, id) in owner && owner[(targets[i].name, id)] == s
      {
        if i < n - 1 {
          assert (targets[i].name, id) !in here;
        } else {
          assert id in one;
        }
      }
    }
  }
}
