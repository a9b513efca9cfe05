/** The grouping loop of `get_weather_forecast`
    (handlers/weather_module.py:71-83): forecast samples are folded, in input
    order, into one summary per calendar date. The date key is an abstract
    type `D`; the timestamp-to-date conversion is not modelled. */
module Aggregation {

  /** One forecast sample as read from the provider's `list`. */
  datatype Sample<D> = Sample(
    date: D,
    tempMin: real,
    tempMax: real,
    description: string,
    humidity: int,
    windSpeed: real)

  /** The summary kept for one date. */
  datatype Day = Day(
    tempMin: real,
    tempMax: real,
    description: string,
    humidity: int,
    windSpeed: real)

  /** An insertion-ordered dictionary from date to summary: `order` lists the
      keys in the order they were first inserted, as a Python dict iterates. */
  datatype Forecasts<D> = Forecasts(order: seq<D>, days: map<D, Day>)

  /** Python's two-argument `min`: the first argument unless the second is
      strictly smaller. */
  function Min(a: real, b: real): (r: real)
    ensures r <= a && r <= b && (r == a || r == b)
  {
    if b < a then b else a
  }

  /** Python's two-argument `max`. */
  function Max(a: real, b: real): (r: real)
    ensures r >= a && r >= b && (r == a || r == b)
  {
    if b > a then b else a
  }

  /** Every listed date has a summary. */
  ghost predicate Listed<D>(f: Forecasts<D>)
  {
    forall k :: 0 <= k < |f.order| ==> f.order[k] in f.days
  }

  /** The dictionary invariant: the order lists every key exactly once. */
  ghost predicate Valid<D>(f: Forecasts<D>)
  {
    && Listed(f)
    && (forall d :: d in f.days ==> d in f.order)
    && (forall a, b :: 0 <= a < b < |f.order| ==> f.order[a] != f.order[b])
  }

  /** The dates that occur in a sample sequence. */
  ghost function DatesOf<D>(samples: seq<Sample<D>>): set<D>
  {
    set i | 0 <= i < |samples| :: samples[i].date
  }

  /** The position of the first sample with date `d`, or `|samples|` when
      there is none. */
  function FirstIndex<D(==)>(samples: seq<Sample<D>>, d: D): (i: nat)
    ensures i <= |samples|
    ensures i < |samples| ==> samples[i].date == d
    ensures forall j :: 0 <= j < i ==> samples[j].date != d
    decreases |samples|
  {
    if |samples| == 0 then 0
    else if samples[0].date == d then 0
    else 1 + FirstIndex(samples[1..], d)
  }

  /** `v` is the least `tempMin` among the samples dated `d`. */
  ghost predicate IsMinTemp<D>(samples: seq<Sample<D>>, d: D, v: real)
  {
    && (exists i :: 0 <= i < |samples| && samples[i].date == d && samples[i].tempMin == v)
    && (forall i :: 0 <= i < |samples| && samples[i].date == d ==> v <= samples[i].tempMin)
  }

  /** `v` is the greatest `tempMax` among the samples dated `d`. */
  ghost predicate IsMaxTemp<D>(samples: seq<Sample<D>>, d: D, v: real)
  {
    && (exists i :: 0 <= i < |samples| && samples[i].date == d && samples[i].tempMax == v)
    && (forall i :: 0 <= i < |samples| && samples[i].date == d ==> samples[i].tempMax <= v)
  }

  /** The summary a date gets from the sample that first mentions it. The
      source seeds the running minimum and maximum with +inf and -inf and
      then folds the sample in; since min(+inf, x) = x and max(-inf, x) = x,
      that is this summary. */
  function Seed<D>(s: Sample<D>): Day
  {
    Day(s.tempMin, s.tempMax, s.description, s.humidity, s.windSpeed)
  }

  /** One iteration of the loop: a new date is appended with its seed; a
      known date only tightens its minimum and maximum. The dictionary gains
      exactly the sample's date, and only a date not seen before extends the
      iteration order. */
  function Step<D(==)>(acc: Forecasts<D>, s: Sample<D>): (r: Forecasts<D>)
    ensures r.days.Keys == acc.days.Keys + {s.date}
    ensures s.date !in acc.days ==> r.order == acc.order + [s.date]
    ensures s.date in acc.days ==> r.order == acc.order
  {
    if s.date !in acc.days then
      Forecasts(acc.order + [s.date], acc.days[s.date := Seed(s)])
    else
      var day := acc.days[s.date];
      Forecasts(acc.order, acc.days[s.date := day.(
        tempMin := Min(day.tempMin, s.tempMin),
        tempMax := Max(day.tempMax, s.tempMax))])
  }

  /** What one iteration does to the summaries: only the sample's own date
      is touched; a new date gets the sample's seed; a date seen before keeps
      its description, humidity and wind speed and widens its range. */
  lemma StepSpec<D>(acc: Forecasts<D>, s: Sample<D>)
    ensures forall d :: d in acc.days && d != s.date ==> Step(acc, s).days[d] == acc.days[d]
    ensures s.date !in acc.days ==> Step(acc, s).days[s.date] == Seed(s)
    ensures s.date in acc.days ==>
      var old_ := acc.days[s.date];
      var new_ := Step(acc, s).days[s.date];
      && new_.description == old_.description
      && new_.humidity == old_.humidity
      && new_.windSpeed == old_.windSpeed
      && new_.tempMin == Min(old_.tempMin, s.tempMin)
      && new_.tempMax == Max(old_.tempMax, s.tempMax)
  {
  }

  /** One more sample adds its date to the dates that occur. */
  lemma DatesOfSnoc<D>(p: seq<Sample<D>>, x: Sample<D>)
    ensures DatesOf(p + [x]) == DatesOf(p) + {x.date}
  {
    var s := p + [x];
    forall d | d in DatesOf(p) ensures d in DatesOf(s) {
      var i :| 0 <= i < |p| && p[i].date == d;
      assert s[i].date == d;
    }
    assert s[|p|].date == x.date;
  }

  /** A step keeps the dictionary invariant. */
  lemma StepValid<D>(acc: Forecasts<D>, s: Sample<D>)
    requires Valid(acc)
    ensures Valid(Step(acc, s))
  {
  }

  /** The fold of the whole loop over the samples, in input order: its keys
      are exactly the dates that occur. */
  function Aggregate<D(==)>(samples: seq<Sample<D>>): (r: Forecasts<D>)
    ensures r.days.Keys == DatesOf(samples)
    decreases |samples|
  {
    if |samples| == 0 then
      Forecasts([], map[])
    else
      var p := samples[..|samples| - 1];
      var x := samples[|samples| - 1];
      assert samples == p + [x];
      DatesOfSnoc(p, x);
      Step(Aggregate(p), x)
  }

  /** A date occurs exactly when its first index is inside the sequence. */
  lemma FirstIndexFound<D>(samples: seq<Sample<D>>, d: D)
    ensures d in DatesOf(samples) <==> FirstIndex(samples, d) < |samples|
  {
    if FirstIndex(samples, d) < |samples| {
      assert samples[FirstIndex(samples, d)].date == d;
    }
  }

  /** Appending a sample never moves the first index of a date that already
      occurs, and a date first seen in the new sample gets its position. */
  lemma FirstIndexSnoc<D>(p: seq<Sample<D>>, x: Sample<D>, d: D)
    ensures FirstIndex(p, d) < |p| ==> FirstIndex(p + [x], d) == FirstIndex(p, d)
    ensures FirstIndex(p, d) == |p| && x.date == d ==> FirstIndex(p + [x], d) == |p|
  {
    var s := p + [x];
    var i := FirstIndex(p, d);
    var j := FirstIndex(s, d);
    if i < |p| {
      assert s[i].date == d;
    } else if x.date == d {
      assert s[|p|].date == d;
    }
  }

  lemma MinMaxExtend<D>(p: seq<Sample<D>>, x: Sample<D>, d: D, lo: real, hi: real)
    requires IsMinTemp(p, d, lo) && IsMaxTemp(p, d, hi)
    ensures x.date == d ==> IsMinTemp(p + [x], d, Min(lo, x.tempMin)) && IsMaxTemp(p + [x], d, Max(hi, x.tempMax))
    ensures x.date != d ==> IsMinTemp(p + [x], d, lo) && IsMaxTemp(p + [x], d, hi)
  {
    var s := p + [x];
    var i :| 0 <= i < |p| && p[i].date == d && p[i].tempMin == lo;
    var k :| 0 <= k < |p| && p[k].date == d && p[k].tempMax == hi;
    assert s[i] == p[i] && s[k] == p[k] && s[|p|] == x;
  }

  lemma MinMaxFresh<D>(p: seq<Sample<D>>, x: Sample<D>)
    requires x.date !in DatesOf(p)
    ensures IsMinTemp(p + [x], x.date, x.tempMin) && IsMaxTemp(p + [x], x.date, x.tempMax)
  {
    var s := p + [x];
    assert s[|p|] == x;
    forall i | 0 <= i < |p| ensures s[i].date != x.date {
      assert s[i] == p[i];
    }
  }

  /** The fold always yields a valid insertion-ordered dictionary. */
  lemma {:induction false} AggregateValid<D>(samples: seq<Sample<D>>)
    ensures Valid(Aggregate(samples))
    decreases |samples|
  {
    if |samples| > 0 {
      var p := samples[..|samples| - 1];
      AggregateValid(p);
      StepValid(Aggregate(p), samples[|samples| - 1]);
    }
  }

  /** The fold unrolled by one sample at the end. */
  lemma AggregateSnoc<D>(p: seq<Sample<D>>, x: Sample<D>)
    ensures Aggregate(p + [x]) == Step(Aggregate(p), x)
  {
    assert (p + [x])[..|p|] == p;
  }

  /** The temperature range of one date is the minimum and maximum over
      that date's samples. */
  lemma {:induction false} AggregateTemps<D>(samples: seq<Sample<D>>, d: D)
    requires d in Aggregate(samples).days
    ensures IsMinTemp(samples, d, Aggregate(samples).days[d].tempMin)
    ensures IsMaxTemp(samples, d, Aggregate(samples).days[d].tempMax)
    decreases |samples|
  {
    var p := samples[..|samples| - 1];
    var x := samples[|samples| - 1];
    assert samples == p + [x];
    var acc := Aggregate(p);
    AggregateSnoc(p, x);
    if d in acc.days {
      AggregateTemps(p, d);
      MinMaxExtend(p, x, d, acc.days[d].tempMin, acc.days[d].tempMax);
    } else {
      MinMaxFresh(p, x);
    }
  }

  /** The description, humidity and wind speed of one date are those of its
      first sample: later samples of the same date never change them. */
  lemma {:induction false} AggregateFirst<D>(samples: seq<Sample<D>>, d: D)
    requires d in Aggregate(samples).days
    ensures FirstIndex(samples, d) < |samples|
    ensures var day := Aggregate(samples).days[d];
      var first := samples[FirstIndex(samples, d)];
      day.description == first.description && day.humidity == first.humidity && day.windSpeed == first.windSpeed
    decreases |samples|
  {
    var p := samples[..|samples| - 1];
    var x := samples[|samples| - 1];
    assert samples == p + [x];
    var acc := Aggregate(p);
    AggregateSnoc(p, x);
    FirstIndexSnoc(p, x, d);
    FirstIndexFound(p, d);
    if d in acc.days {
      AggregateFirst(p, d);
      assert samples[FirstIndex(samples, d)] == p[FirstIndex(p, d)];
    }
  }

  /** The ordering argument for one pair of positions after one more
      sample. */
  lemma OrderStep<D>(p: seq<Sample<D>>, x: Sample<D>, a: nat, b: nat)
    requires Valid(Aggregate(p))
    requires forall a, b :: 0 <= a < b < |Aggregate(p).order| ==>
      FirstIndex(p, Aggregate(p).order[a]) < FirstIndex(p, Aggregate(p).order[b])
    requires a < b < |Step(Aggregate(p), x).order|
    ensures FirstIndex(p + [x], Step(Aggregate(p), x).order[a]) < FirstIndex(p + [x], Step(Aggregate(p), x).order[b])
  {
    var acc := Aggregate(p);
    var r := Step(acc, x);
    var da := acc.order[a];
    assert r.order[a] == da;
    FirstIndexFound(p, da);
    FirstIndexSnoc(p, x, da);
    if b < |acc.order| {
      var db := acc.order[b];
      assert r.order[b] == db;
      FirstIndexFound(p, db);
      FirstIndexSnoc(p, x, db);
    } else {
      assert r.order[b] == x.date && x.date !in acc.days;
      FirstIndexFound(p, x.date);
      FirstIndexSnoc(p, x, x.date);
    }
  }

  /** The dates are listed in the order in which they first appear in the
      input, whatever their chronological order. */
  lemma {:induction false} AggregateOrder<D>(samples: seq<Sample<D>>)
    ensures var r := Aggregate(samples);
      forall a, b :: 0 <= a < b < |r.order| ==>
        FirstIndex(samples, r.order[a]) < FirstIndex(samples, r.order[b])
    decreases |samples|
  {
    if |samples| > 0 {
      var p := samples[..|samples| - 1];
      var x := samples[|samples| - 1];
      assert samples == p + [x];
      AggregateOrder(p);
      AggregateValid(p);
      var acc := Aggregate(p);
      var r := Aggregate(samples);
      AggregateSnoc(p, x);
      forall a, b | 0 <= a < b < |r.order|
        ensures FirstIndex(samples, r.order[a]) < FirstIndex(samples, r.order[b])
      {
        OrderStep(p, x, a, b);
      }
    }
  }


  /** If no sample has its minimum above its maximum, no day's summary does
      either: the day's minimum is at most its first sample's minimum, and
      its maximum at least that sample's maximum. */
  lemma AggregateRangeOrdered<D>(samples: seq<Sample<D>>)
    requires forall i :: 0 <= i < |samples| ==> samples[i].tempMin <= samples[i].tempMax
    ensures forall d :: d in Aggregate(samples).days ==>
      Aggregate(samples).days[d].tempMin <= Aggregate(samples).days[d].tempMax
  {
    forall d | d in Aggregate(samples).days
      ensures Aggregate(samples).days[d].tempMin <= Aggregate(samples).days[d].tempMax
    {
      AggregateTemps(samples, d);
      var i :| 0 <= i < |samples| && samples[i].date == d && samples[i].tempMin == Aggregate(samples).days[d].tempMin;
    }
  }

  /** The fold over a prefix one sample longer. */
  lemma AggregatePrefix<D>(samples: seq<Sample<D>>, i: nat)
    requires i < |samples|
    ensures Aggregate(samples[..i + 1]) == Step(Aggregate(samples[..i]), samples[i])
  {
    assert samples[..i + 1][..i] == samples[..i];
  }

  /** The loop as written: one pass over the samples, updating the
      dictionary in place. It computes the fold, so every property proved of
      `Aggregate` holds of its result. */
  method AggregateLoop<D(==)>(samples: seq<Sample<D>>) returns (r: Forecasts<D>)
    ensures r == Aggregate(samples)
    ensures r.days.Keys == DatesOf(samples)
  {
    r := Forecasts([], map[]);
    var i := 0;
    while i < |samples|
      invariant 0 <= i <= |samples|
      invariant r == Aggregate(samples[..i])
    {
      AggregatePrefix(samples, i);
      r := Step(r, samples[i]);
      i := i + 1;
    }
    assert samples[..i] == samples;
  }
}
