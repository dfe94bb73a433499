/**
 * What the arrivals service answers for one direction, and how the skill
 * cuts it down: an empty answer rejects that direction, a short one is kept,
 * a longer one is cut to its first two departures. The two directions are
 * joined all-or-nothing (`Promise.all`).
 */
module Arrivals {
  import opened Wrappers

  /** One upcoming departure; only its `DepartureText` is read. */
  datatype Departure = Departure(departureText: string)

  function Min(a: int, b: int): int {
    if a <= b then a else b
  }

  /**
   * The per-direction promise: None when the answer is empty (`reject`),
   * otherwise the departures to speak about.
   */
  function Truncate(answer: seq<Departure>): (kept: Option<seq<Departure>>)
    ensures kept.None? <==> |answer| == 0
    ensures kept.Some? ==> |kept.value| == Min(|answer|, 2)
    ensures kept.Some? ==> kept.value == answer[..|kept.value|]
  {
    if |answer| == 0 then None
    else if |answer| <= 2 then Some(answer)
    else Some(answer[..2])
  }

  /** Cutting down an answer that was already cut down changes nothing. */
  lemma TruncateIdempotent(answer: seq<Departure>)
    requires Truncate(answer).Some?
    ensures Truncate(Truncate(answer).value) == Truncate(answer)
  {
  }

  /**
   * Both directions together: the two kept lists, or None as soon as either
   * direction's answer is empty, whatever the other one holds.
   */
  function Aggregate(east: seq<Departure>, west: seq<Departure>): (r: Option<(seq<Departure>, seq<Departure>)>)
    ensures r.Some? <==> |east| > 0 && |west| > 0
    ensures r.Some? ==> Some(r.value.0) == Truncate(east) && Some(r.value.1) == Truncate(west)
  {
    match (Truncate(east), Truncate(west))
    case (Some(e), Some(w)) => Some((e, w))
    case _ => None
  }
}
