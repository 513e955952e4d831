/** The vendor-agnostic values that flow between the adapters, the validator and
    the write path (internal/canonical/types.go), and the clock they share. */
module Canonical {

  datatype Option<+T> = None | Some(value: T)

  /** Ticks since Go's zero time (January 1 of year 1, UTC); 0 is therefore the one
      instant for which Go's `IsZero` holds. */
  type Time = int

  const ZERO_TIME: Time := 0

  function Max(a: Time, b: Time): Time {
    if a < b then b else a
  }

  const TWO_TO_THE_63 := 0x8000_0000_0000_0000
  const TWO_TO_THE_64 := 0x1_0000_0000_0000_0000

  /** int64 arithmetic wraps round until the value fits. */
  function Int64(x: int): (r: int)
    ensures -TWO_TO_THE_63 <= r < TWO_TO_THE_63
    decreases if x >= TWO_TO_THE_63 then x else if x < -TWO_TO_THE_63 then -x else 0
  {
    if x >= TWO_TO_THE_63 then Int64(x - TWO_TO_THE_64)
    else if x < -TWO_TO_THE_63 then Int64(x + TWO_TO_THE_64)
    else x
  }

  lemma {:induction false} Int64IsMod(x: int)
    ensures Int64(x) == (x + TWO_TO_THE_63) % TWO_TO_THE_64 - TWO_TO_THE_63
    decreases if x >= TWO_TO_THE_63 then x else if x < -TWO_TO_THE_63 then -x else 0
  {
    if x >= TWO_TO_THE_63 {
      Int64IsMod(x - TWO_TO_THE_64);
    } else if x < -TWO_TO_THE_63 {
      Int64IsMod(x + TWO_TO_THE_64);
    }
  }

  const FILL_LEVEL := "FILL_LEVEL"

  /** A float64 result: NaN or a number. Infinities are numbers outside every range. */
  datatype Reading = NaN | Number(value: real)

  /** One reading. `raw` is the verbatim result of a passthrough vendor, when it has one. */
  datatype Observation = Observation(
    thing: string,
    property: string,
    phenomenonTime: Time,
    resultTime: Time,
    result: Reading,
    raw: Option<string>,
    rawId: string)

  /** Some element of `obs` carries time `t`. */
  predicate HasTime(obs: seq<Observation>, t: Time) {
    exists i :: 0 <= i < |obs| && obs[i].phenomenonTime == t
  }

  lemma Pick<T>(s: set<T>) returns (x: T)
    requires s != {}
    ensures x in s
  {
    x :| x in s;
  }
}
