/** How long each entry into the pump took, bucketed, with idle and busy entries apart. */
module PumpHistogram {

  const BUCKETS: nat := 7
  const EDGES: seq<int> := [1, 5, 20, 100, 500, 2000]

  datatype Sample = Sample(ms: int, busy: bool)

  // ---------------------------------------------------------------------------
  // What the counters should say about the samples taken
  // ---------------------------------------------------------------------------

  /** The sample lies in the bucket's interval: from the edge below, if any, up to its own edge, if any. */
  predicate InBucket(ms: int, bucket: nat)
    requires bucket < BUCKETS
  {
    (bucket > 0 ==> EDGES[bucket - 1] <= ms) && (bucket < BUCKETS - 1 ==> ms < EDGES[bucket])
  }

  predicate Falls(s: Sample, busy: bool, bucket: nat)
    requires bucket < BUCKETS
  {
    s.busy == busy && InBucket(s.ms, bucket)
  }

  /** How many of the samples are of this class and in this bucket. */
  function Tally(samples: seq<Sample>, busy: bool, bucket: nat): nat
    requires bucket < BUCKETS
  {
    if samples == [] then 0
    else Tally(samples[..|samples| - 1], busy, bucket) + if Falls(samples[|samples| - 1], busy, bucket) then 1 else 0
  }

  function Sum(counters: seq<nat>): nat {
    if counters == [] then 0 else Sum(counters[..|counters| - 1]) + counters[|counters| - 1]
  }

  ghost predicate IsMaximum(max: int, samples: seq<Sample>) {
    && max >= 0 && (forall s :: s in samples ==> s.ms <= max)
    && (max == 0 || exists s :: s in samples && s.ms == max)
  }

  lemma TallyGrows(samples: seq<Sample>, s: Sample, busy: bool, bucket: nat)
    requires bucket < BUCKETS
    ensures Tally(samples + [s], busy, bucket) == Tally(samples, busy, bucket) + if Falls(s, busy, bucket) then 1 else 0
  {
    assert (samples + [s])[..|samples|] == samples;
  }

  /** Every duration, however small or large, lies in exactly one bucket. */
  lemma OneBucket(ms: int, a: nat, b: nat)
    requires a < BUCKETS && b < BUCKETS && InBucket(ms, a) && InBucket(ms, b)
    ensures a == b
  {
    if a < b {
      EdgesRise(a, b - 1);
    } else if b < a {
      EdgesRise(b, a - 1);
    }
  }

  /** One more sample raises exactly the counter of its class and bucket. */
  lemma TalliesGrow(samples: seq<Sample>, s: Sample, bucket: nat)
    requires bucket < BUCKETS && InBucket(s.ms, bucket)
    ensures forall b: nat, busy: bool :: b < BUCKETS ==>
              Tally(samples + [s], busy, b) == Tally(samples, busy, b) + if busy == s.busy && b == bucket then 1 else 0
  {
    forall b: nat, busy: bool | b < BUCKETS
      ensures Tally(samples + [s], busy, b) == Tally(samples, busy, b) + if busy == s.busy && b == bucket then 1 else 0
    {
      TallyGrows(samples, s, busy, b);
      if InBucket(s.ms, b) { OneBucket(s.ms, b, bucket); }
    }
  }

  /** The counters of one class are its tallies. */
  ghost predicate Tallied(samples: seq<Sample>, counters: seq<nat>, busy: bool) {
    |counters| == BUCKETS && forall b: nat :: b < BUCKETS ==> counters[b] == Tally(samples, busy, b)
  }

  /** One more sample: the counter of its class and bucket goes up, the other class stays. */
  lemma TalliedGrows(samples: seq<Sample>, s: Sample, bucket: nat, counters: seq<nat>, busy: bool)
    requires bucket < BUCKETS && InBucket(s.ms, bucket) && Tallied(samples, counters, busy)
    ensures Tallied(samples + [s], if busy == s.busy then counters[bucket := counters[bucket] + 1] else counters, busy)
  {
    TalliesGrow(samples, s, bucket);
  }

  lemma EdgesRise(i: nat, j: nat)
    requires i <= j < |EDGES|
    ensures EDGES[i] <= EDGES[j]
  {
  }

  lemma SumUpdated(counters: seq<nat>, i: nat)
    requires i < |counters|
    ensures Sum(counters[i := counters[i] + 1]) == Sum(counters) + 1
  {
    var n := |counters| - 1;
    var raised := counters[i := counters[i] + 1];
    if i < n {
      SumUpdated(counters[..n], i);
      assert raised[..n] == counters[..n][i := counters[i] + 1];
    } else {
      assert raised[..n] == counters[..n];
    }
  }

  // ---------------------------------------------------------------------------
  // The counters
  // ---------------------------------------------------------------------------

  class PumpHistogram {
    const idle: array<nat>
    const busy: array<nat>
    var calls: nat
    var maxMs: int
    ghost var samples: seq<Sample>

    /** The counters are exactly the tallies of the samples recorded, and add up to their number. */
    ghost predicate Valid()
      reads this, idle, busy
    {
      && idle != busy && Tallied(samples, idle[..], false) && Tallied(samples, busy[..], true)
      && calls == |samples| == Sum(idle[..]) + Sum(busy[..])
      && IsMaximum(maxMs, samples)
    }

    constructor ()
      ensures Valid() && samples == [] && fresh(idle) && fresh(busy)
    {
      idle := new nat[BUCKETS](_ => 0);
      busy := new nat[BUCKETS](_ => 0);
      calls, maxMs, samples := 0, 0, [];
      new;
      Zeros(idle[..]);
      Zeros(busy[..]);
    }

    method RecordPump(ms: int, wasBusy: bool)
      requires Valid()
      modifies this, idle, busy
      ensures Valid() && samples == old(samples) + [Sample(ms, wasBusy)]
    {
      ghost var s := Sample(ms, wasBusy);
      var b := Bucket(ms);
      CountSample(ms, wasBusy, b);
      MaximumGrows(maxMs, samples, s);
      calls := calls + 1;
      if ms > maxMs {
        maxMs := ms;
      }
      samples := samples + [s];
    }

    /** The one counter the sample belongs to. */
    method CountSample(ms: int, wasBusy: bool, b: nat)
      requires Valid() && b < BUCKETS && InBucket(ms, b)
      modifies idle, busy
      ensures Tallied(samples + [Sample(ms, wasBusy)], idle[..], false)
      ensures Tallied(samples + [Sample(ms, wasBusy)], busy[..], true)
      ensures Sum(idle[..]) + Sum(busy[..]) == |samples| + 1
    {
      TalliedGrows(samples, Sample(ms, wasBusy), b, idle[..], false);
      TalliedGrows(samples, Sample(ms, wasBusy), b, busy[..], true);
      if wasBusy {
        Count(busy, b);
      } else {
        Count(idle, b);
      }
    }

    /** The first edge above the duration names the bucket; past them all is the last one. */
    static method Bucket(ms: int) returns (b: nat)
      ensures b < BUCKETS && InBucket(ms, b)
    {
      b := BUCKETS - 1;
      for i := 0 to BUCKETS - 1
        invariant b == BUCKETS - 1 && (i > 0 ==> EDGES[i - 1] <= ms)
      {
        if ms < EDGES[i] {
          return i;
        }
      }
    }

    static method Count(counters: array<nat>, b: nat)
      requires b < counters.Length
      modifies counters
      ensures counters[..] == old(counters[..])[b := old(counters[b]) + 1]
      ensures Sum(counters[..]) == Sum(old(counters[..])) + 1
    {
      SumUpdated(counters[..], b);
      counters[b] := counters[b] + 1;
    }
  }

  lemma {:induction false} Zeros(counters: seq<nat>)
    requires forall i :: 0 <= i < |counters| ==> counters[i] == 0
    ensures Sum(counters) == 0
  {
    if counters != [] {
      Zeros(counters[..|counters| - 1]);
    }
  }

  lemma MaximumGrows(max: int, samples: seq<Sample>, s: Sample)
    requires IsMaximum(max, samples)
    ensures IsMaximum(if s.ms > max then s.ms else max, samples + [s])
  {
    var max' := if s.ms > max then s.ms else max;
    var grown := samples + [s];
    assert grown[|samples|] == s;
    if s.ms <= max && max > 0 {
      var longest :| longest in samples && longest.ms == max;
      assert longest in grown;
    }
  }
}
