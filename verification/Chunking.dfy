/** How the Collaborall reader cuts a stream's observations into envelopes
    (chunkEnvelopes and maxPhenomenonTime, cmd/collaborall-reader/run.go), and how large
    the envelopes really get. */
module Chunking {
  import opened Canonical

  const MAX_ENVELOPE_BYTES := 900 * 1024

  /** The push endpoint's limit (internal/api/push.go). */
  const MAX_PUSH_BYTES := 1024 * 1024

  /** Go's integer division, which truncates towards zero. */
  function GoDiv(a: int, b: int): int
    requires b > 0
  {
    if a >= 0 then a / b else -((-a) / b)
  }

  /** The encoded length of each observation, and of an envelope without any: a JSON object
      whose "observations" is then `null`. */
  datatype Encoding = Encoding(length: Observation -> nat, overhead: nat)

  function SumOf(enc: Encoding, obs: seq<Observation>): nat {
    if obs == [] then 0 else SumOf(enc, obs[..|obs| - 1]) + enc.length(obs[|obs| - 1])
  }

  /** The encoded length of an envelope: `null` makes way for two brackets, the elements and
      the commas between them. */
  function EnvelopeLen(enc: Encoding, obs: seq<Observation>): int {
    if obs == [] then enc.overhead
    else enc.overhead - 4 + 2 + SumOf(enc, obs) + (|obs| - 1)
  }

  /** What one observation is reckoned to add. */
  function PerObs(enc: Encoding, obs: seq<Observation>): (p: int)
    ensures p == if obs != [] && enc.length(obs[0]) > 3 then enc.length(obs[0]) - 2 else 1
  {
    if obs == [] then 1
    else
      assert obs[..1][..0] == [];
      assert SumOf(enc, obs[..1]) == enc.length(obs[0]);
      var d := EnvelopeLen(enc, obs[..1]) - enc.overhead;
      if d > 1 then d else 1
  }

  /** How many observations go into one envelope. */
  function PerEnvelope(enc: Encoding, obs: seq<Observation>, maxBytes: int): (n: int)
    ensures n >= 1
  {
    var n := GoDiv(maxBytes - enc.overhead, PerObs(enc, obs));
    if n < 1 then 1 else n
  }

  function Concat(chunks: seq<seq<Observation>>): seq<Observation> {
    if chunks == [] then [] else Concat(chunks[..|chunks| - 1]) + chunks[|chunks| - 1]
  }

  /** The chunks, end to end, are the observations in order; none is empty, and all but the
      last are full. */
  method ChunkEnvelopes(enc: Encoding, obs: seq<Observation>, maxBytes: int) returns (envs: seq<seq<Observation>>)
    ensures Concat(envs) == obs
    ensures forall c :: c in envs ==> 1 <= |c| <= PerEnvelope(enc, obs, maxBytes)
    ensures forall k :: 0 <= k < |envs| - 1 ==> |envs[k]| == PerEnvelope(enc, obs, maxBytes)
  {
    var perObs := 1;
    if |obs| > 0 {
      var d := EnvelopeLen(enc, obs[..1]) - enc.overhead;
      if d > perObs {
        perObs := d;
      }
    }
    assert perObs == PerObs(enc, obs);
    var n := GoDiv(maxBytes - enc.overhead, perObs);
    if n < 1 {
      n := 1;
    }
    envs := [];
    var i := 0;
    while i < |obs|
      invariant 0 <= i
      invariant Concat(envs) == obs[..if i < |obs| then i else |obs|]
      invariant forall c :: c in envs ==> 1 <= |c| <= n
      invariant forall k :: 0 <= k < |envs| && (i <= |obs| || k < |envs| - 1) ==> |envs[k]| == n
    {
      var end := if i + n > |obs| then |obs| else i + n;
      assert obs[..end] == obs[..i] + obs[i..end];
      envs := envs + [obs[i..end]];
      assert envs[..|envs| - 1] + [obs[i..end]] == envs;
      i := i + n;
    }
    assert obs[..|obs|] == obs;
  }

  /** The newest phenomenon time of a non-empty batch. */
  function Newest(obs: seq<Observation>): (max: Time)
    requires obs != []
    ensures HasTime(obs, max)
    ensures forall i :: 0 <= i < |obs| ==> obs[i].phenomenonTime <= max
  {
    var n := |obs| - 1;
    if n == 0 then
      assert obs[0].phenomenonTime == obs[n].phenomenonTime;
      obs[0].phenomenonTime
    else
      var max := Newest(obs[..n]);
      assert forall i :: 0 <= i < n ==> obs[..n][i] == obs[i];
      Max(max, obs[n].phenomenonTime)
  }

  method MaxPhenomenonTime(obs: seq<Observation>) returns (max: Time)
    requires obs != []
    ensures max == Newest(obs)
  {
    max := obs[0].phenomenonTime;
    for i := 1 to |obs|
      invariant max == Newest(obs[..i])
    {
      assert obs[..i + 1][..i] == obs[..i];
      if obs[i].phenomenonTime > max {
        max := obs[i].phenomenonTime;
      }
    }
    assert obs[..|obs|] == obs;
  }

  // ---- How large an envelope gets -----------------------------------------------------

  lemma {:induction false} SumIsBounded(enc: Encoding, obs: seq<Observation>, longest: nat)
    requires forall o :: o in obs ==> enc.length(o) <= longest
    ensures SumOf(enc, obs) <= |obs| * longest
  {
    if obs != [] {
      var n := |obs| - 1;
      SumIsBounded(enc, obs[..n], longest);
      assert |obs| * longest == n * longest + longest;
    }
  }

  /** How much shorter the observations are, together, than observations of `p + 2` bytes. */
  function Spare(enc: Encoding, obs: seq<Observation>, p: int): int {
    if obs == [] then 0 else Spare(enc, obs[..|obs| - 1], p) + p + 2 - enc.length(obs[|obs| - 1])
  }

  lemma {:induction false} SumAndSpare(enc: Encoding, obs: seq<Observation>, p: int)
    ensures SumOf(enc, obs) + Spare(enc, obs, p) == |obs| * (p + 2)
  {
    if obs != [] {
      var n := |obs| - 1;
      SumAndSpare(enc, obs[..n], p);
      assert |obs| * (p + 2) == n * (p + 2) + (p + 2);
    }
  }

  lemma {:induction false} NothingToSpare(enc: Encoding, obs: seq<Observation>, p: int)
    requires forall o :: o in obs ==> enc.length(o) == p + 2
    ensures Spare(enc, obs, p) == 0
  {
    if obs != [] {
      NothingToSpare(enc, obs[..|obs| - 1], p);
    }
  }

  lemma QuotientFits(a: int, p: int, k: int)
    requires p >= 1 && a >= p && 1 <= k <= a / p
    ensures k * p <= a
  {
    Times(a / p, k, p);
  }

  lemma Times(a: int, b: int, k: int)
    requires b <= a && k >= 0
    ensures k * b <= k * a && b * k <= a * k
  {
  }

  lemma ElementsFit(k: int, length: int, p: int, sum: int)
    requires k >= 0 && length <= p + 2 && sum <= k * length
    ensures sum <= k * p + 2 * k
  {
    Times(p + 2, length, k);
  }

  /** If no observation is longer than the first and one fits, an envelope of k
      observations overshoots the budget by at most 3(k - 1) bytes. */
  lemma EnvelopeOvershoot(enc: Encoding, obs: seq<Observation>, chunk: seq<Observation>, maxBytes: int)
    requires obs != [] && forall o :: o in chunk ==> enc.length(o) <= enc.length(obs[0])
    requires enc.overhead + PerObs(enc, obs) <= maxBytes
    requires 1 <= |chunk| <= PerEnvelope(enc, obs, maxBytes)
    ensures EnvelopeLen(enc, chunk) <= maxBytes + 3 * (|chunk| - 1)
  {
    var p, k := PerObs(enc, obs), |chunk|;
    SumIsBounded(enc, chunk, enc.length(obs[0]));
    QuotientFits(maxBytes - enc.overhead, p, k);
    ElementsFit(k, enc.length(obs[0]), p, SumOf(enc, chunk));
  }

  /** The budget is met exactly when the room that the estimate leaves over, and what the
      observations spare of it, come to 3(k - 1) bytes. */
  lemma BudgetIsMetIff(enc: Encoding, obs: seq<Observation>, chunk: seq<Observation>, maxBytes: int)
    requires chunk != []
    ensures EnvelopeLen(enc, chunk) <= maxBytes <==>
            3 * (|chunk| - 1)
              <= maxBytes - enc.overhead - |chunk| * PerObs(enc, obs) + Spare(enc, chunk, PerObs(enc, obs))
  {
    var p := PerObs(enc, obs);
    SumAndSpare(enc, chunk, p);
    assert |chunk| * (p + 2) == |chunk| * p + 2 * |chunk|;
  }

  /** A full envelope: the room left over is the remainder of the division. */
  lemma FullBudgetIsMetIff(enc: Encoding, obs: seq<Observation>, chunk: seq<Observation>, maxBytes: int)
    requires enc.overhead + PerObs(enc, obs) <= maxBytes
    requires |chunk| == PerEnvelope(enc, obs, maxBytes)
    ensures EnvelopeLen(enc, chunk) <= maxBytes <==>
            3 * (|chunk| - 1)
              <= (maxBytes - enc.overhead) % PerObs(enc, obs) + Spare(enc, chunk, PerObs(enc, obs))
  {
    BudgetIsMetIff(enc, obs, chunk, maxBytes);
    Divided(maxBytes - enc.overhead, PerObs(enc, obs));
  }

  lemma Divided(a: int, p: int)
    requires 1 <= p <= a
    ensures a / p >= 1 && a - a / p * p == a % p
  {
  }

  /** A full envelope of equally long observations. */
  lemma EqualBudgetIsMetIff(enc: Encoding, obs: seq<Observation>, chunk: seq<Observation>, maxBytes: int)
    requires obs != [] && enc.length(obs[0]) >= 3
    requires forall o :: o in chunk ==> enc.length(o) == enc.length(obs[0])
    requires enc.overhead + PerObs(enc, obs) <= maxBytes
    requires |chunk| == PerEnvelope(enc, obs, maxBytes)
    ensures EnvelopeLen(enc, chunk) <= maxBytes <==>
            3 * (|chunk| - 1) <= (maxBytes - enc.overhead) % PerObs(enc, obs)
  {
    FullBudgetIsMetIff(enc, obs, chunk, maxBytes);
    NothingToSpare(enc, chunk, PerObs(enc, obs));
  }

  /** The reader's own budget keeps every envelope below the endpoint's limit once an
      observation takes 22 bytes or more. */
  lemma EnvelopeFitsThePush(enc: Encoding, obs: seq<Observation>, chunk: seq<Observation>)
    requires obs != [] && forall o :: o in chunk ==> enc.length(o) <= enc.length(obs[0])
    requires PerObs(enc, obs) >= 22 && enc.overhead + PerObs(enc, obs) <= MAX_ENVELOPE_BYTES
    requires 1 <= |chunk| <= PerEnvelope(enc, obs, MAX_ENVELOPE_BYTES)
    ensures EnvelopeLen(enc, chunk) < MAX_PUSH_BYTES
  {
    EnvelopeOvershoot(enc, obs, chunk, MAX_ENVELOPE_BYTES);
    FewFit(MAX_ENVELOPE_BYTES - enc.overhead, PerObs(enc, obs), |chunk|);
  }

  lemma FewFit(room: int, p: int, k: int)
    requires 22 <= p <= room <= MAX_ENVELOPE_BYTES && 1 <= k <= room / p
    ensures 22 * k <= MAX_ENVELOPE_BYTES
  {
    QuotientFits(room, p, k);
    Times(p, 22, k);
  }

  /** "Each marshals to under maxBytes" fails for every full envelope that the reader makes
      of equal observations of up to 1600 bytes: what the division leaves over is less than
      one observation, and 3 bytes for each of hundreds are missing. */
  lemma ReaderBudgetIsNotMet(enc: Encoding, obs: seq<Observation>, chunk: seq<Observation>)
    requires enc.overhead <= 10000 && obs != [] && 3 <= enc.length(obs[0]) <= 1600
    requires forall o :: o in chunk ==> enc.length(o) == enc.length(obs[0])
    requires |chunk| == PerEnvelope(enc, obs, MAX_ENVELOPE_BYTES)
    ensures EnvelopeLen(enc, chunk) > MAX_ENVELOPE_BYTES
  {
    var p, room := PerObs(enc, obs), MAX_ENVELOPE_BYTES - enc.overhead;
    ManyFit(room, p);
    EqualBudgetIsMetIff(enc, obs, chunk, MAX_ENVELOPE_BYTES);
  }

  lemma ManyFit(room: int, p: int)
    requires 1 <= p <= 1598 && room >= 911600
    ensures 3 * (room / p - 1) >= p
  {
    var n := room / p;
    assert room < (n + 1) * p;
    Times(1598, p, n + 1);
    assert 1598 * (n + 1) > room;
  }

  /** For one: 4652 observations of 200 bytes each, with 500 bytes around them, fill an
      envelope to 935549 bytes, where 921600 were allowed. */
  lemma EnvelopeOverTheBudget(o: Observation)
    ensures var enc, batch := Encoding(x => 200, 500), seq(4652, i => o);
            && PerEnvelope(enc, batch, MAX_ENVELOPE_BYTES) == 4652
            && EnvelopeLen(enc, batch) == 935549
  {
    var enc, batch := Encoding(x => 200, 500), seq(4652, i => o);
    assert PerObs(enc, batch) == 198;
    SumAndSpare(enc, batch, 198);
    NothingToSpare(enc, batch, 198);
  }
}
