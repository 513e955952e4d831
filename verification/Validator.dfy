/** The data-quality rules of internal/validator/validator.go: an order-preserving
    partition of a batch whose rejected half still moves the poll cursor. */
module Validator {
  import opened Canonical

  datatype Reason = MissingResult | OutOfRange | InFuture | BeforeCursor | OutOfBoundsCoordinates

  datatype Rejection = Rejection(index: nat, observation: Observation, reason: Reason)

  /** The first rule `o` breaks, if any. */
  function Validate(o: Observation, cursor: Time, now: Time, skew: int): Option<Reason> {
    if o.raw.None? && o.result.NaN? then
      Some(MissingResult)
    else if o.raw.None? && o.property == FILL_LEVEL && (o.result.value < 0.0 || o.result.value > 100.0) then
      Some(OutOfRange)
    else if o.phenomenonTime > now + skew then
      Some(InFuture)
    else if cursor != ZERO_TIME && o.phenomenonTime <= cursor then
      Some(BeforeCursor)
    else
      None
  }

  /** Whether a rejection with this reason lets the cursor move past the row. */
  predicate IsDefinitivelyRejected(r: Reason) {
    match r
    case MissingResult | OutOfRange | InFuture | BeforeCursor | OutOfBoundsCoordinates => true
  }

  predicate Passes(o: Observation, cursor: Time, now: Time, skew: int) {
    Validate(o, cursor, now, skew).None?
  }

  predicate Missing(o: Observation) {
    o.raw.None? && o.result.NaN?
  }

  predicate OutsideRange(o: Observation) {
    && o.raw.None? && o.result.Number? && o.property == FILL_LEVEL
    && (o.result.value < 0.0 || o.result.value > 100.0)
  }

  /** Which rule a row is rejected by: passthrough rows skip the first two, a fill level may
      be anything from 0 to 100, times up to the clock plus the skew are not in the future,
      and a zero cursor is none. */
  lemma ReasonIs(o: Observation, cursor: Time, now: Time, skew: int)
    ensures var reason := Validate(o, cursor, now, skew);
            && (reason == Some(MissingResult) <==> Missing(o))
            && (reason == Some(OutOfRange) <==> OutsideRange(o))
            && (reason == Some(InFuture) <==>
                  !Missing(o) && !OutsideRange(o) && o.phenomenonTime > now + skew)
            && (reason == Some(BeforeCursor) <==>
                  !Missing(o) && !OutsideRange(o) && o.phenomenonTime <= now + skew
                  && cursor != 0 && o.phenomenonTime <= cursor)
            && (reason == None <==>
                  !Missing(o) && !OutsideRange(o) && o.phenomenonTime <= now + skew
                  && (cursor == 0 || o.phenomenonTime > cursor))
  {
  }

  function Kept(obs: seq<Observation>, cursor: Time, now: Time, skew: int): seq<Observation> {
    if obs == [] then []
    else
      var before := Kept(obs[..|obs| - 1], cursor, now, skew);
      if Passes(obs[|obs| - 1], cursor, now, skew) then before + [obs[|obs| - 1]] else before
  }

  function Rejected(obs: seq<Observation>, cursor: Time, now: Time, skew: int): seq<Rejection> {
    if obs == [] then []
    else
      var last := |obs| - 1;
      var before := Rejected(obs[..last], cursor, now, skew);
      match Validate(obs[last], cursor, now, skew)
      case None => before
      case Some(reason) => before + [Rejection(last, obs[last], reason)]
  }

  /** The input positions of the kept observations, in output order. */
  ghost function KeptAt(obs: seq<Observation>, cursor: Time, now: Time, skew: int): seq<nat> {
    if obs == [] then []
    else
      var last := |obs| - 1;
      var before := KeptAt(obs[..last], cursor, now, skew);
      if Passes(obs[last], cursor, now, skew) then before + [last] else before
  }

  method Filter(cursor: Time, now: Time, skew: int, obs: seq<Observation>)
    returns (kept: seq<Observation>, rejected: seq<Rejection>)
    ensures kept == Kept(obs, cursor, now, skew)
    ensures rejected == Rejected(obs, cursor, now, skew)
    ensures |kept| + |rejected| == |obs|
  {
    kept, rejected := [], [];
    for i := 0 to |obs|
      invariant kept == Kept(obs[..i], cursor, now, skew)
      invariant rejected == Rejected(obs[..i], cursor, now, skew)
      invariant |kept| + |rejected| == i
    {
      assert obs[..i + 1][..i] == obs[..i];
      match Validate(obs[i], cursor, now, skew) {
        case Some(reason) => rejected := rejected + [Rejection(i, obs[i], reason)];
        case None => kept := kept + [obs[i]];
      }
    }
    assert obs[..|obs|] == obs;
  }

  predicate Ascending(s: seq<nat>) {
    forall i, j :: 0 <= i < j < |s| ==> s[i] < s[j]
  }

  lemma {:induction false} KeptAtAscends(obs: seq<Observation>, cursor: Time, now: Time, skew: int)
    ensures Ascending(KeptAt(obs, cursor, now, skew))
    ensures forall i :: 0 <= i < |KeptAt(obs, cursor, now, skew)| ==> KeptAt(obs, cursor, now, skew)[i] < |obs|
  {
    if obs != [] {
      KeptAtAscends(obs[..|obs| - 1], cursor, now, skew);
    }
  }

  lemma {:induction false} KeptAtIsWherePasses(obs: seq<Observation>, cursor: Time, now: Time, skew: int, p: nat)
    requires p < |obs|
    ensures p in KeptAt(obs, cursor, now, skew) <==> Passes(obs[p], cursor, now, skew)
  {
    var last := |obs| - 1;
    var init := obs[..last];
    if p < last {
      KeptAtIsWherePasses(init, cursor, now, skew, p);
    } else {
      KeptAtAscends(init, cursor, now, skew);
    }
  }

  lemma {:induction false} KeptIsAt(obs: seq<Observation>, cursor: Time, now: Time, skew: int, i: nat)
    ensures |Kept(obs, cursor, now, skew)| == |KeptAt(obs, cursor, now, skew)|
    ensures i < |KeptAt(obs, cursor, now, skew)| ==>
              && KeptAt(obs, cursor, now, skew)[i] < |obs|
              && Kept(obs, cursor, now, skew)[i] == obs[KeptAt(obs, cursor, now, skew)[i]]
  {
    if obs != [] {
      KeptIsAt(obs[..|obs| - 1], cursor, now, skew, i);
    }
  }

  /** The kept half is the input at the ascending list of exactly the positions that pass. */
  lemma KeptIsOrdered(obs: seq<Observation>, cursor: Time, now: Time, skew: int)
    ensures var kept := Kept(obs, cursor, now, skew);
            var at := KeptAt(obs, cursor, now, skew);
            && |kept| == |at|
            && Ascending(at)
            && (forall i :: 0 <= i < |at| ==> at[i] < |obs| && kept[i] == obs[at[i]])
            && (forall p :: 0 <= p < |obs| ==> (p in at <==> Passes(obs[p], cursor, now, skew)))
  {
    var kept, at := Kept(obs, cursor, now, skew), KeptAt(obs, cursor, now, skew);
    KeptAtAscends(obs, cursor, now, skew);
    KeptIsAt(obs, cursor, now, skew, 0);
    forall i | 0 <= i < |at| ensures at[i] < |obs| && kept[i] == obs[at[i]] {
      KeptIsAt(obs, cursor, now, skew, i);
    }
    forall p | 0 <= p < |obs| ensures p in at <==> Passes(obs[p], cursor, now, skew) {
      KeptAtIsWherePasses(obs, cursor, now, skew, p);
    }
  }

  /** The rejected half lists the other positions in input order, each with the rule its
      row breaks; with KeptIsOrdered, Filter is a partition. */
  lemma {:induction false} RejectedIsOrdered(obs: seq<Observation>, cursor: Time, now: Time, skew: int)
    ensures var rejected := Rejected(obs, cursor, now, skew);
            && |Kept(obs, cursor, now, skew)| + |rejected| == |obs|
            && (forall i, j :: 0 <= i < j < |rejected| ==> rejected[i].index < rejected[j].index)
            && (forall i :: 0 <= i < |rejected| ==>
                  && rejected[i].index < |obs|
                  && rejected[i].observation == obs[rejected[i].index]
                  && Validate(rejected[i].observation, cursor, now, skew) == Some(rejected[i].reason))
  {
    if obs != [] {
      RejectedIsOrdered(obs[..|obs| - 1], cursor, now, skew);
    }
  }

  /** Nothing appears in the kept half that was not in the input, and nothing that
      passes is lost. */
  lemma {:induction false} KeptMembers(obs: seq<Observation>, cursor: Time, now: Time, skew: int)
    ensures forall o :: o in Kept(obs, cursor, now, skew) <==> o in obs && Passes(o, cursor, now, skew)
  {
    if obs != [] {
      var last := |obs| - 1;
      KeptMembers(obs[..last], cursor, now, skew);
      assert obs == obs[..last] + [obs[last]];
    }
  }

  /** A batch dated at or before a non-zero cursor is rejected to the last row. */
  lemma {:induction false} LateBatchIsRejected(obs: seq<Observation>, cursor: Time, now: Time, skew: int)
    requires cursor != ZERO_TIME
    requires forall o :: o in obs ==> o.phenomenonTime <= cursor
    ensures Kept(obs, cursor, now, skew) == []
  {
    if obs != [] {
      LateBatchIsRejected(obs[..|obs| - 1], cursor, now, skew);
    }
  }
}
