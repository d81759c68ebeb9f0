/** The per-group statistic accumulator and its merge (`countup` with the
    nil-aware helpers `sum`, `max` and `min`). */
module Stats {
  import opened Wrappers

  /** One group's running statistics. `sum`, `max` and `min` are nil until a
      record carrying the configured field arrives. A fresh accumulator `{}`
      has a nil count, which the `sum` helper reads as 0; every stored
      accumulator has passed through `countup`, so the count here is a number. */
  datatype Acc = Acc(count: int, sum: Option<real>, max: Option<real>, min: Option<real>)

  /** Which statistics are configured: `avg_key`, `max_key`, `min_key`. */
  datatype Tracked = Tracked(avg: bool, max: bool, min: bool)

  /** The accumulator `{}` that `||= {}` creates. */
  const Fresh := Acc(0, None, None, None)

  /** The `sum` helper: nil counts as 0. */
  function SumOf(a: Option<real>, b: Option<real>): real {
    a.GetOr(0.0) + b.GetOr(0.0)
  }

  /** The `max` helper: a nil operand always loses. */
  function MaxOf(a: Option<real>, b: Option<real>): (r: Option<real>)
    ensures r.None? <==> a.None? && b.None?
    ensures r == a || r == b
    ensures r.Some? ==> (a.Some? ==> a.value <= r.value) && (b.Some? ==> b.value <= r.value)
  {
    if a.None? then b
    else if b.None? then a
    else if a.value > b.value then a else b
  }

  /** The `min` helper: a nil operand always loses. */
  function MinOf(a: Option<real>, b: Option<real>): (r: Option<real>)
    ensures r.None? <==> a.None? && b.None?
    ensures r == a || r == b
    ensures r.Some? ==> (a.Some? ==> r.value <= a.value) && (b.Some? ==> r.value <= b.value)
  {
    if a.None? then b
    else if b.None? then a
    else if a.value > b.value then b else a
  }

  /** `countup(a, d)`: folds the delta `d` into `a`. */
  function CountUp(t: Tracked, a: Acc, d: Acc): (r: Acc)
    // the count always adds up, nil counting as 0
    ensures r.count == a.count + d.count
    // a statistic that is not configured, or that the delta lacks, is untouched
    ensures !(t.avg && d.sum.Some?) ==> r.sum == a.sum
    ensures !(t.max && d.max.Some?) ==> r.max == a.max
    ensures !(t.min && d.min.Some?) ==> r.min == a.min
    // otherwise the sum adds up and the extremes keep the larger / smaller value
    ensures t.avg && d.sum.Some? ==> r.sum == Some(a.sum.GetOr(0.0) + d.sum.value)
    ensures t.max && d.max.Some? ==>
              && r.max.Some? && r.max.value >= d.max.value
              && (a.max.Some? ==> r.max.value >= a.max.value)
              && (r.max == a.max || r.max == d.max)
    ensures t.min && d.min.Some? ==>
              && r.min.Some? && r.min.value <= d.min.value
              && (a.min.Some? ==> r.min.value <= a.min.value)
              && (r.min == a.min || r.min == d.min)
  {
    Acc(a.count + d.count,
        if t.avg && d.sum.Some? then Some(SumOf(a.sum, d.sum)) else a.sum,
        if t.max && d.max.Some? then MaxOf(a.max, d.max) else a.max,
        if t.min && d.min.Some? then MinOf(a.min, d.min) else a.min)
  }

  /** An accumulator carries only the statistics that are configured: true of
      every accumulator that ingestion builds. */
  predicate Conforms(t: Tracked, a: Acc) {
    (a.sum.Some? ==> t.avg) && (a.max.Some? ==> t.max) && (a.min.Some? ==> t.min)
  }

  lemma CountUpConforms(t: Tracked, a: Acc, d: Acc)
    requires Conforms(t, a)
    ensures Conforms(t, CountUp(t, a, d))
  {
  }

  /** Merging is commutative on accumulators that carry only configured
      statistics. */
  lemma CountUpCommutes(t: Tracked, a: Acc, b: Acc)
    requires Conforms(t, a) && Conforms(t, b)
    ensures CountUp(t, a, b) == CountUp(t, b, a)
  {
  }

  /** Without conformance, merging is not commutative: a sum that is not
      configured stays on the left operand. */
  lemma CountUpNotCommutativeInGeneral()
    ensures var t := Tracked(false, false, false);
            var a := Acc(1, Some(2.0), None, None);
            CountUp(t, a, Fresh) != CountUp(t, Fresh, a)
  {
  }

  /** Merging is associative. */
  lemma CountUpAssociates(t: Tracked, a: Acc, b: Acc, c: Acc)
    ensures CountUp(t, CountUp(t, a, b), c) == CountUp(t, a, CountUp(t, b, c))
  {
  }

  /** `{}` is a neutral element: on the right always, on the left for a delta
      that carries only configured statistics. */
  lemma FreshIsNeutral(t: Tracked, a: Acc)
    ensures CountUp(t, a, Fresh) == a
    ensures Conforms(t, a) ==> CountUp(t, Fresh, a) == a
  {
  }
}
