/**
 The slot grid of the evaluator: slots are the cadence boundaries, shifted back by the lateness the
 evaluator allows.
 */
module EvaluationSlots {
  ghost predicate Multiple(x: int, cadence: int) { exists n :: IsTimes(x, n, cadence) }

  predicate IsTimes(x: int, n: int, cadence: int) { x == n * cadence }

  ghost predicate OnGrid(slot: int, cadence: int, lateness: int) { Multiple(slot + lateness, cadence) }

  function Truncate(t: int, cadence: int): int
    requires cadence > 0
  {
    t - t % cadence
  }

  function LatestCompleteSlot(t: int, cadence: int, lateness: int): int
    requires cadence > 0
  {
    Truncate(t, cadence) - lateness
  }

  function NextCompleteSlot(t: int, cadence: int, lateness: int): int
    requires cadence > 0
  {
    var shifted := t + lateness;
    var boundary := Truncate(shifted, cadence);
    (if boundary == shifted then boundary else boundary + cadence) - lateness
  }

  lemma TruncateIsMultiple(t: int, cadence: int)
    requires cadence > 0
    ensures Multiple(Truncate(t, cadence), cadence) && Truncate(t, cadence) <= t < Truncate(t, cadence) + cadence
  {
    assert IsTimes(Truncate(t, cadence), t / cadence, cadence);
  }

  lemma TimesMonotone(p: int, q: int, cadence: int)
    requires cadence > 0 && p <= q
    ensures p * cadence <= q * cadence
  {
  }

  lemma Differ(p: int, q: int, cadence: int)
    ensures q * cadence - p * cadence == (q - p) * cadence && p * cadence + cadence == (p + 1) * cadence
  {
  }

  /** Multiples of the cadence are at least a cadence apart. */
  lemma Multiples(a: int, b: int, cadence: int)
    requires cadence > 0 && Multiple(a, cadence) && Multiple(b, cadence)
    ensures a < b ==> a + cadence <= b
    ensures Multiple(b - a, cadence) && Multiple(a + cadence, cadence)
  {
    var p :| IsTimes(a, p, cadence);
    var q :| IsTimes(b, q, cadence);
    Differ(p, q, cadence);
    assert IsTimes(b - a, q - p, cadence) && IsTimes(a + cadence, p + 1, cadence);
    if p < q {
      TimesMonotone(p + 1, q, cadence);
    } else {
      TimesMonotone(q, p, cadence);
    }
  }

  /** The next complete slot is the first grid slot that is not before the given time. */
  lemma NextIsFirst(t: int, cadence: int, lateness: int, slot: int)
    requires cadence > 0
    ensures OnGrid(NextCompleteSlot(t, cadence, lateness), cadence, lateness)
    ensures t <= NextCompleteSlot(t, cadence, lateness)
    ensures OnGrid(slot, cadence, lateness) && t <= slot ==> NextCompleteSlot(t, cadence, lateness) <= slot
  {
    var boundary := Truncate(t + lateness, cadence);
    TruncateIsMultiple(t + lateness, cadence);
    Multiples(boundary, boundary, cadence);
    if OnGrid(slot, cadence, lateness) {
      Multiples(boundary, slot + lateness, cadence);
    }
  }

  /** The latest complete slot is the last grid slot whose allowed lateness has passed. */
  lemma LatestIsLast(t: int, cadence: int, lateness: int, slot: int)
    requires cadence > 0
    ensures OnGrid(LatestCompleteSlot(t, cadence, lateness), cadence, lateness)
    ensures LatestCompleteSlot(t, cadence, lateness) + lateness <= t
    ensures OnGrid(slot, cadence, lateness) && slot + lateness <= t ==> slot <= LatestCompleteSlot(t, cadence, lateness)
  {
    var boundary := Truncate(t, cadence);
    TruncateIsMultiple(t, cadence);
    if OnGrid(slot, cadence, lateness) {
      Multiples(boundary, slot + lateness, cadence);
    }
  }

  /** Slots the evaluator computes lie on one grid: any two are a whole number of cadences apart. */
  lemma SlotsShareAGrid(t: int, u: int, cadence: int, lateness: int)
    requires cadence > 0
    ensures Multiple(LatestCompleteSlot(u, cadence, lateness) - NextCompleteSlot(t, cadence, lateness), cadence)
    ensures Multiple(LatestCompleteSlot(u, cadence, lateness) - LatestCompleteSlot(t, cadence, lateness), cadence)
  {
    NextIsFirst(t, cadence, lateness, 0);
    LatestIsLast(t, cadence, lateness, 0);
    LatestIsLast(u, cadence, lateness, 0);
    Multiples(NextCompleteSlot(t, cadence, lateness) + lateness, LatestCompleteSlot(u, cadence, lateness) + lateness,
              cadence);
    Multiples(LatestCompleteSlot(t, cadence, lateness) + lateness, LatestCompleteSlot(u, cadence, lateness) + lateness,
              cadence);
  }
}
