/**
 The manager dashboard's aggregates over the ticket list: stage-delta means, their daily trend, engineer loads and
 queue counts (internal/httpapi/manager_handlers.go).
 */
module Manager {
  import opened Common
  import opened Tickets

  /** Times are nanoseconds since the epoch; a UTC calendar day is its number. */
  const DAY := 86_400_000_000_000
  const HOUR := 3_600_000_000_000
  const MINUTE := 60_000_000_000

  function DayOf(at: int): int { at / DAY }

  // ---------------------------------------------------------------- what is measured, and how it is grouped

  datatype Metric = MTTD | MTTA | MTTM | MTTR

  /** `ticketMTTx`: a ticket's stage deltas, None for a stage not reached. */
  function Delta(t: Ticket, metric: Metric): Option<int>
  {
    match metric
    case MTTD => if t.detectedAt.Some? then Some(t.detectedAt.value - t.createdAt) else None
    case MTTA =>
      if t.ackedAt.Some? && t.detectedAt.Some? then Some(t.ackedAt.value - t.detectedAt.value) else None
    case MTTM =>
      if t.mitigatedAt.Some? && t.ackedAt.Some? then Some(t.mitigatedAt.value - t.ackedAt.value) else None
    case MTTR =>
      if t.resolvedAt.None? then None
      else if t.mitigatedAt.Some? then Some(t.resolvedAt.value - t.mitigatedAt.value)
      else if t.ackedAt.Some? then Some(t.resolvedAt.value - t.ackedAt.value)
      else None
  }

  predicate Sampled(t: Ticket, metric: Metric) { Delta(t, metric).GetOr(-1) >= 0 }

  predicate Active(t: Ticket) { t.status == New || t.status == InProgress }

  datatype Measure = Sum(metric: Metric) | Samples(metric: Metric) | Load | Open | Breaching(now: int)

  function Weight(t: Ticket, m: Measure): nat
  {
    match m
    case Sum(metric) => if Sampled(t, metric) then Delta(t, metric).value else 0
    case Samples(metric) => if Sampled(t, metric) then 1 else 0
    case Load => if Active(t) then 1 else 0
    case Open => if t.status != Closed then 1 else 0
    case Breaching(now) => if t.status != Closed && t.slaDueAt.Some? && now > t.slaDueAt.value then 1 else 0
  }

  datatype Grouping = Together | ByDay | ByAssignee | ByQueue

  function KeyOf(t: Ticket, g: Grouping): Option<int>
  {
    match g
    case Together => Some(0)
    case ByDay => if t.resolvedAt.Some? then Some(DayOf(t.resolvedAt.value)) else None
    case ByAssignee => t.assignee
    case ByQueue => Some(t.queue)
  }

  predicate InGroup(t: Ticket, g: Grouping, keys: set<int>)
  {
    KeyOf(t, g).Some? && KeyOf(t, g).value in keys
  }

  /** The measure summed over the tickets whose key is one of `keys`. */
  function Total(ts: seq<Ticket>, g: Grouping, m: Measure, keys: set<int>): nat
  {
    if ts == [] then 0
    else
      var t := ts[|ts| - 1];
      Total(ts[..|ts| - 1], g, m, keys) + if InGroup(t, g, keys) then Weight(t, m) else 0
  }

  function PerGroup(ts: seq<Ticket>, g: Grouping, m: Measure, keys: seq<int>): nat
  {
    if keys == [] then 0
    else PerGroup(ts, g, m, keys[..|keys| - 1]) + Total(ts, g, m, {keys[|keys| - 1]})
  }

  function Keys(keys: seq<int>): set<int> { set k | k in keys }

  predicate Distinct(keys: seq<int>) { forall i, j :: 0 <= i < j < |keys| ==> keys[i] != keys[j] }

  lemma TotalSnoc(ts: seq<Ticket>, t: Ticket, g: Grouping, m: Measure, keys: set<int>)
    ensures Total(ts + [t], g, m, keys) == Total(ts, g, m, keys) + if InGroup(t, g, keys) then Weight(t, m) else 0
  {
    assert (ts + [t])[..|ts|] == ts;
  }

  lemma {:induction false} TotalSplits(ts: seq<Ticket>, g: Grouping, m: Measure, a: set<int>, b: set<int>)
    requires a !! b
    ensures Total(ts, g, m, a + b) == Total(ts, g, m, a) + Total(ts, g, m, b)
  {
    if ts != [] {
      TotalSplits(ts[..|ts| - 1], g, m, a, b);
    }
  }

  lemma {:induction false} TotalOfNone(ts: seq<Ticket>, g: Grouping, m: Measure)
    ensures Total(ts, g, m, {}) == 0
  {
    if ts != [] {
      TotalOfNone(ts[..|ts| - 1], g, m);
    }
  }

  /** Distinct groups lose nothing and count nothing twice. */
  lemma {:induction false} GroupsConserve(ts: seq<Ticket>, g: Grouping, m: Measure, keys: seq<int>)
    requires Distinct(keys)
    ensures PerGroup(ts, g, m, keys) == Total(ts, g, m, Keys(keys))
  {
    if keys == [] {
      assert Keys(keys) == {};
      TotalOfNone(ts, g, m);
    } else {
      var n := |keys| - 1;
      GroupsConserve(ts, g, m, keys[..n]);
      assert keys == keys[..n] + [keys[n]];
      assert Keys(keys) == Keys(keys[..n]) + {keys[n]};
      TotalSplits(ts, g, m, Keys(keys[..n]), {keys[n]});
    }
  }

  // ---------------------------------------------------------------- means and their trend

  datatype Avg = Avg(sum: int, count: nat) {
    /** Negative deltas are not samples. */
    function Add(v: int): Avg { if v < 0 then this else Avg(sum + v, count + 1) }

    function Mean(): Option<real> { if count == 0 then None else Some(sum as real / count as real) }

    function Minutes(): real { Mean().GetOr(0.0) / MINUTE as real }
  }

  datatype Sums = Sums(d: Avg, a: Avg, m: Avg, r: Avg)

  function Accumulated(ts: seq<Ticket>, g: Grouping, metric: Metric, keys: set<int>): Avg
  {
    Avg(Total(ts, g, Sum(metric), keys), Total(ts, g, Samples(metric), keys))
  }

  function AllSums(ts: seq<Ticket>, g: Grouping, keys: set<int>): Sums
  {
    Sums(Accumulated(ts, g, MTTD, keys), Accumulated(ts, g, MTTA, keys),
         Accumulated(ts, g, MTTM, keys), Accumulated(ts, g, MTTR, keys))
  }

  lemma AccumulatedSnoc(ts: seq<Ticket>, t: Ticket, g: Grouping, metric: Metric, keys: set<int>)
    ensures Accumulated(ts + [t], g, metric, keys)
         == var before := Accumulated(ts, g, metric, keys);
            if InGroup(t, g, keys) && Delta(t, metric).Some? then before.Add(Delta(t, metric).value) else before
  {
    TotalSnoc(ts, t, g, Sum(metric), keys);
    TotalSnoc(ts, t, g, Samples(metric), keys);
  }

  /** A sample of the interval from one stamp to another: both are there, and it does not run backwards. */
  function Interval(from: Option<int>, to: Option<int>): Option<nat>
  {
    if from.Some? && to.Some? && to.value >= from.value then Some(to.value - from.value) else None
  }

  predicate Gained(before: Avg, after: Avg, sample: Option<nat>)
  {
    if sample.Some? then after == Avg(before.sum + sample.value, before.count + 1) else after == before
  }

  /**
   MAIN RESULT. What a ticket adds to the four means, read off its stamps: created to detected, detected to acked, acked to
   mitigated, and to resolved from mitigated, or from acked where nobody mitigated.
   */
  lemma TicketIsSampled(ts: seq<Ticket>, t: Ticket)
    ensures Gained(Accumulated(ts, Together, MTTD, {0}), Accumulated(ts + [t], Together, MTTD, {0}), Interval(Some(t.createdAt), t.detectedAt))
    ensures Gained(Accumulated(ts, Together, MTTA, {0}), Accumulated(ts + [t], Together, MTTA, {0}), Interval(t.detectedAt, t.ackedAt))
    ensures Gained(Accumulated(ts, Together, MTTM, {0}), Accumulated(ts + [t], Together, MTTM, {0}), Interval(t.ackedAt, t.mitigatedAt))
    ensures Gained(Accumulated(ts, Together, MTTR, {0}), Accumulated(ts + [t], Together, MTTR, {0}),
                   Interval(if t.mitigatedAt.Some? then t.mitigatedAt else t.ackedAt, t.resolvedAt))
    ensures Accumulated([], Together, MTTD, {0}) == Accumulated([], Together, MTTA, {0}) == Avg(0, 0)
    ensures Accumulated([], Together, MTTM, {0}) == Accumulated([], Together, MTTR, {0}) == Avg(0, 0)
  {
    AccumulatedSnoc(ts, t, Together, MTTD, {0});
    AccumulatedSnoc(ts, t, Together, MTTA, {0});
    AccumulatedSnoc(ts, t, Together, MTTM, {0});
    AccumulatedSnoc(ts, t, Together, MTTR, {0});
  }

  /** A mean times its samples is their sum; without samples there is none, and the trend plots zero. */
  lemma MeanIs(a: Avg)
    ensures a.Mean().None? <==> a.count == 0
    ensures a.Mean().Some? ==> a.Mean().value * a.count as real == a.sum as real
    ensures a.Minutes() * 60_000_000_000.0 == if a.count == 0 then 0.0 else a.Mean().value
  {
  }

  /** Four running means; one per dashboard, or one per day. */
  class Bucket {
    var d: Avg
    var a: Avg
    var m: Avg
    var r: Avg

    ghost function Value(): Sums
      reads this
    {
      Sums(d, a, m, r)
    }

    constructor ()
      ensures Value() == Sums(Avg(0, 0), Avg(0, 0), Avg(0, 0), Avg(0, 0))
    {
      d, a, m, r := Avg(0, 0), Avg(0, 0), Avg(0, 0), Avg(0, 0);
    }

    method AddTicket(t: Ticket, ghost ts: seq<Ticket>, ghost g: Grouping, ghost keys: set<int>)
      requires Value() == AllSums(ts, g, keys) && InGroup(t, g, keys)
      modifies this
      ensures Value() == AllSums(ts + [t], g, keys)
    {
      AccumulatedSnoc(ts, t, g, MTTD, keys);
      AccumulatedSnoc(ts, t, g, MTTA, keys);
      AccumulatedSnoc(ts, t, g, MTTM, keys);
      AccumulatedSnoc(ts, t, g, MTTR, keys);
      var delta := Delta(t, MTTD);
      if delta.Some? { d := d.Add(delta.value); }
      delta := Delta(t, MTTA);
      if delta.Some? { a := a.Add(delta.value); }
      delta := Delta(t, MTTM);
      if delta.Some? { m := m.Add(delta.value); }
      delta := Delta(t, MTTR);
      if delta.Some? { r := r.Add(delta.value); }
    }
  }

  /** The dashboard's tile: exact means, None for no samples. */
  method ComputeMTTx(tickets: seq<Ticket>) returns (d: Option<real>, a: Option<real>, m: Option<real>, r: Option<real>)
    ensures d == Accumulated(tickets, Together, MTTD, {0}).Mean()
    ensures a == Accumulated(tickets, Together, MTTA, {0}).Mean()
    ensures m == Accumulated(tickets, Together, MTTM, {0}).Mean()
    ensures r == Accumulated(tickets, Together, MTTR, {0}).Mean()
  {
    var all := new Bucket();
    var i := 0;
    while i < |tickets|
      invariant 0 <= i <= |tickets| && all.Value() == AllSums(tickets[..i], Together, {0})
    {
      assert tickets[..i + 1] == tickets[..i] + [tickets[i]];
      all.AddTicket(tickets[i], tickets[..i], Together, {0});
      i := i + 1;
    }
    assert tickets[..i] == tickets;
    d, a, m, r := all.d.Mean(), all.a.Mean(), all.m.Mean(), all.r.Mean();
  }

  datatype Point = Point(day: int, d: real, a: real, m: real, r: real)

  function PointOf(day: int, s: Sums): Point
  {
    Point(day, s.d.Minutes(), s.a.Minutes(), s.m.Minutes(), s.r.Minutes())
  }

  /** `instants` are what stepping back from now by whole calendar days gives, oldest first. */
  method ComputeMTTxTrend(tickets: seq<Ticket>, instants: seq<int>) returns (points: seq<Point>)
    ensures |points| == |instants|
    ensures forall i :: 0 <= i < |instants| ==>
              var day := DayOf(instants[i]);
              points[i] == PointOf(day, AllSums(tickets, ByDay, {day}))
  {
    var buckets: map<int, Bucket> := map[];
    var dates: seq<int> := [];
    var i := 0;
    while i < |instants|
      invariant 0 <= i <= |instants| && |dates| == i
      invariant forall j :: 0 <= j < i ==> dates[j] == DayOf(instants[j]) && dates[j] in buckets
      invariant forall day :: day in buckets ==> fresh(buckets[day])
      invariant forall x, y :: x in buckets && y in buckets && x != y ==> buckets[x] != buckets[y]
      invariant forall day :: day in buckets ==> buckets[day].Value() == AllSums([], ByDay, {day})
    {
      var day := DayOf(instants[i]);
      dates := dates + [day];
      var bucket := new Bucket();
      buckets := buckets[day := bucket];
      i := i + 1;
    }
    i := 0;
    while i < |tickets|
      invariant 0 <= i <= |tickets|
      invariant forall day :: day in buckets ==> buckets[day].Value() == AllSums(tickets[..i], ByDay, {day})
    {
      assert tickets[..i + 1] == tickets[..i] + [tickets[i]];
      var t := tickets[i];
      SkippedElsewhere(tickets[..i], t);
      if t.resolvedAt.Some? && DayOf(t.resolvedAt.value) in buckets {
        var day := DayOf(t.resolvedAt.value);
        buckets[day].AddTicket(t, tickets[..i], ByDay, {day});
      }
      i := i + 1;
    }
    assert tickets[..i] == tickets;
    points := [];
    i := 0;
    while i < |dates|
      invariant 0 <= i <= |dates| && |points| == i
      invariant forall j :: 0 <= j < i ==> points[j] == PointOf(dates[j], AllSums(tickets, ByDay, {dates[j]}))
    {
      var b := buckets[dates[i]];
      points := points + [Point(dates[i], b.d.Minutes(), b.a.Minutes(), b.m.Minutes(), b.r.Minutes())];
      i := i + 1;
    }
  }

  /** A ticket leaves every other day's bucket as it was. */
  lemma SkippedElsewhere(ts: seq<Ticket>, t: Ticket)
    ensures forall day :: KeyOf(t, ByDay) != Some(day) ==>
              AllSums(ts + [t], ByDay, {day}) == AllSums(ts, ByDay, {day})
  {
    forall day | KeyOf(t, ByDay) != Some(day)
      ensures AllSums(ts + [t], ByDay, {day}) == AllSums(ts, ByDay, {day})
    {
      AccumulatedSnoc(ts, t, ByDay, MTTD, {day});
      AccumulatedSnoc(ts, t, ByDay, MTTA, {day});
      AccumulatedSnoc(ts, t, ByDay, MTTM, {day});
      AccumulatedSnoc(ts, t, ByDay, MTTR, {day});
    }
  }

  function Dates(instants: seq<int>): (days: seq<int>)
    ensures |days| == |instants| && forall i :: 0 <= i < |days| ==> days[i] == DayOf(instants[i])
  {
    seq(|instants|, i requires 0 <= i < |instants| => DayOf(instants[i]))
  }

  predicate Conserves(ts: seq<Ticket>, metric: Metric, dates: seq<int>)
  {
    && PerGroup(ts, ByDay, Sum(metric), dates) == Total(ts, ByDay, Sum(metric), Keys(dates))
    && PerGroup(ts, ByDay, Samples(metric), dates) == Total(ts, ByDay, Samples(metric), Keys(dates))
  }

  lemma {:induction false} GroupPositive(ts: seq<Ticket>, g: Grouping, m: Measure, keys: seq<int>, i: nat)
    requires i < |keys|
    ensures PerGroup(ts, g, m, keys) >= Total(ts, g, m, {keys[i]})
  {
    var n := |keys| - 1;
    if i < n {
      GroupPositive(ts, g, m, keys[..n], i);
    }
  }

  lemma {:induction false} GroupTwice(ts: seq<Ticket>, g: Grouping, m: Measure, keys: seq<int>, i: nat, j: nat)
    requires i < j < |keys| && keys[i] == keys[j]
    ensures PerGroup(ts, g, m, keys) >= 2 * Total(ts, g, m, {keys[i]})
  {
    var n := |keys| - 1;
    if j < n {
      GroupTwice(ts, g, m, keys[..n], i, j);
    } else {
      GroupPositive(ts, g, m, keys[..n], i);
    }
  }

  /**
   MAIN RESULT. The daily (sum, count) pairs of all four metrics add up to what one mean over the same tickets
   accumulates, for every list of tickets, if and only if the points are distinct days.
   */
  lemma TrendConservesIffDistinct(dates: seq<int>)
    ensures (forall ts, metric :: Conserves(ts, metric, dates)) <==> Distinct(dates)
  {
    if Distinct(dates) {
      forall ts: seq<Ticket>, metric ensures Conserves(ts, metric, dates) {
        GroupsConserve(ts, ByDay, Sum(metric), dates);
        GroupsConserve(ts, ByDay, Samples(metric), dates);
      }
    } else {
      var i, j :| 0 <= i < j < |dates| && dates[i] == dates[j];
      var at := dates[i] * DAY;
      var t := Ticket(Resolved, 0, 0, None, map[], at, None, Some(at), None, Some(at), 0, None, None);
      assert DayOf(at) == dates[i] && dates[i] in Keys(dates);
      assert [t][..0] == [] && Weight(t, Samples(MTTR)) == 1;
      assert Total([t], ByDay, Samples(MTTR), {dates[i]}) == 1;
      assert Total([t], ByDay, Samples(MTTR), Keys(dates)) == 1;
      GroupTwice([t], ByDay, Samples(MTTR), dates, i, j);
      assert !Conserves([t], MTTR, dates);
    }
  }

  /** The points step back from now by days of twenty-four hours, oldest first. */
  predicate Steady(instants: seq<int>, now: int)
  {
    forall i :: 0 <= i < |instants| ==> instants[i] == now - (|instants| - 1 - i) * DAY
  }

  lemma DaysBack(now: int, k: int)
    ensures DayOf(now - k * DAY) == DayOf(now) - k
  {
    assert now - k * DAY == DAY * (DayOf(now) - k) + now % DAY;
  }

  /** Then the points are the dates up to today's, as many as there are points, each once. */
  lemma SteadyDates(instants: seq<int>, now: int, day: int)
    requires Steady(instants, now)
    ensures Distinct(Dates(instants))
    ensures day in Keys(Dates(instants)) <==> DayOf(now) - |instants| < day <= DayOf(now)
  {
    var n, dates := |instants|, Dates(instants);
    forall i | 0 <= i < n ensures dates[i] == DayOf(now) - (n - 1 - i) {
      DaysBack(now, n - 1 - i);
    }
    if DayOf(now) - n < day <= DayOf(now) {
      assert dates[n - 1 - (DayOf(now) - day)] == day;
    }
  }

  /** What the dashboard fetches for `n` points: tickets resolved in the last `n` days, to the very hour; none is resolved after now. */
  predicate Fetched(t: Ticket, n: nat, now: int)
  {
    t.resolvedAt.Some? && now - n * DAY <= t.resolvedAt.value <= now
  }

  lemma {:induction false} CountDistinct(xs: seq<int>, x: int)
    requires Distinct(xs)
    ensures Count(xs, x) == if x in Keys(xs) then 1 else 0
  {
    if xs != [] {
      var n := |xs| - 1;
      CountDistinct(xs[..n], x);
      assert xs == xs[..n] + [xs[n]];
      assert xs[n] !in xs[..n];
    }
  }

  /**
   MAIN RESULT. A fetched ticket falls in exactly one bucket, unless it was resolved on the oldest of the dates that the
   fetch reaches: the fetch starts a day before the first point, and such a ticket falls in none.
   */
  lemma OneBucketIff(t: Ticket, instants: seq<int>, now: int)
    requires Steady(instants, now) && Fetched(t, |instants|, now)
    ensures var day := DayOf(t.resolvedAt.value);
            Count(Dates(instants), day) == if day == DayOf(now) - |instants| then 0 else 1
  {
    var at := t.resolvedAt.value;
    SteadyDates(instants, now, DayOf(at));
    CountDistinct(Dates(instants), DayOf(at));
    DaysBack(now, |instants|);
    DayMonotone(now - |instants| * DAY, at);
    DayMonotone(at, now);
  }

  lemma DayMonotone(a: int, b: int)
    ensures a <= b ==> DayOf(a) <= DayOf(b)
  {
  }

  /** At every moment there is a time on that date which the fetch covers. */
  lemma SomeTicketIsMissed(instants: seq<int>, now: int, t: Ticket)
    requires Steady(instants, now) && t.resolvedAt == Some(now - |instants| * DAY)
    ensures Fetched(t, |instants|, now) && !InGroup(t, ByDay, Keys(Dates(instants)))
  {
    DaysBack(now, |instants|);
    SteadyDates(instants, now, DayOf(t.resolvedAt.value));
  }

  /** The day on which clocks go back has twenty-five hours; a UTC date is skipped if and only if its first point is in the last hour of one. */
  lemma LongDaySkipsIff(at: int)
    ensures DayOf(at + DAY + HOUR) == DayOf(at) + 2 <==> at % DAY >= DAY - HOUR
    ensures at % DAY < DAY - HOUR ==> DayOf(at + DAY + HOUR) == DayOf(at) + 1
  {
    assert at == DAY * DayOf(at) + at % DAY;
    if at % DAY >= DAY - HOUR {
      assert at + DAY + HOUR >= DAY * (DayOf(at) + 2);
    } else {
      assert at + DAY + HOUR < DAY * (DayOf(at) + 2);
    }
  }

  /**
   The day on which clocks go forward has twenty-three hours. The points before and after it fall on one UTC date if and
   only if the first lies in the first hour of that date.
   */
  lemma ShortDayRepeatsIff(at: int)
    ensures DayOf(at) == DayOf(at + DAY - HOUR) <==> at % DAY < HOUR
  {
    assert at == DAY * DayOf(at) + at % DAY;
    if at % DAY < HOUR {
      assert at + DAY - HOUR < DAY * (DayOf(at) + 1);
    } else {
      assert at + DAY - HOUR >= DAY * (DayOf(at) + 1);
    }
  }

  /** 31 March 2024, 01:30 in Berlin, which is 00:30 UTC, and 1 April 2024, 01:30, which is 23:30 UTC on 31 March. */
  const BERLIN_SPRING := [1_711_845_000_000_000_000, 1_711_927_800_000_000_000]

  /** A dashboard opened there at that hour counts some tickets twice. */
  lemma SpringForwardCountsTwice()
    ensures BERLIN_SPRING[1] == BERLIN_SPRING[0] + DAY - HOUR
    ensures exists ts, metric :: !Conserves(ts, metric, Dates(BERLIN_SPRING))
  {
    var dates := Dates(BERLIN_SPRING);
    ShortDayRepeatsIff(BERLIN_SPRING[0]);
    assert dates[0] == dates[1];
    TrendConservesIffDistinct(dates);
  }

  lemma {:induction false} WindowIsAll(ts: seq<Ticket>, m: Measure, days: set<int>)
    requires forall t :: t in ts ==> InGroup(t, ByDay, days)
    ensures Total(ts, ByDay, m, days) == Total(ts, Together, m, {0})
  {
    if ts != [] {
      WindowIsAll(ts[..|ts| - 1], m, days);
    }
  }

  lemma WindowSplits(ts: seq<Ticket>, m: Measure, instants: seq<int>, now: int)
    requires Steady(instants, now) && forall t :: t in ts ==> Fetched(t, |instants|, now)
    ensures PerGroup(ts, ByDay, m, Dates(instants)) + Total(ts, ByDay, m, {DayOf(now) - |instants|})
         == Total(ts, Together, m, {0})
  {
    var dates, missed := Dates(instants), DayOf(now) - |instants|;
    SteadyDates(instants, now, missed);
    forall t | t in ts ensures InGroup(t, ByDay, Keys(dates) + {missed}) {
      OneBucketIff(t, instants, now);
      SteadyDates(instants, now, DayOf(t.resolvedAt.value));
      CountDistinct(dates, DayOf(t.resolvedAt.value));
    }
    GroupsConserve(ts, ByDay, m, dates);
    TotalSplits(ts, ByDay, m, Keys(dates), {missed});
    WindowIsAll(ts, m, Keys(dates) + {missed});
  }

  /**
   MAIN RESULT. Over the tickets the dashboard fetches, the trend adds up to what one mean over them accumulates, less
   exactly the samples of the date before the first point.
   */
  lemma TrendAgreesWithTile(ts: seq<Ticket>, metric: Metric, instants: seq<int>, now: int)
    requires Steady(instants, now) && forall t :: t in ts ==> Fetched(t, |instants|, now)
    ensures var tile := Accumulated(ts, Together, metric, {0});
            var missed := Accumulated(ts, ByDay, metric, {DayOf(now) - |instants|});
            && PerGroup(ts, ByDay, Sum(metric), Dates(instants)) == tile.sum - missed.sum
            && PerGroup(ts, ByDay, Samples(metric), Dates(instants)) == tile.count - missed.count
  {
    WindowSplits(ts, Sum(metric), instants, now);
    WindowSplits(ts, Samples(metric), instants, now);
  }

  // ---------------------------------------------------------------- loads and queues

  datatype User = User(id: int, name: string, agent: bool)

  datatype EngineerLoad = EngineerLoad(userId: int, name: string, load: nat, overloaded: bool)

  function Staff(users: seq<User>): seq<User>
  {
    if users == [] then []
    else
      var rest := Staff(users[..|users| - 1]);
      if users[|users| - 1].agent then rest + [users[|users| - 1]] else rest
  }

  function Ids(users: seq<User>): (ids: seq<int>)
    ensures |ids| == |users| && forall i :: 0 <= i < |users| ==> ids[i] == users[i].id
  {
    seq(|users|, i requires 0 <= i < |users| => users[i].id)
  }

  /** More than the average plus one, in exact arithmetic. */
  predicate Overloaded(load: nat, total: nat, n: nat)
    requires n > 0
  {
    load as real > total as real / n as real + 1.0
  }

  method EngineerLoads(tickets: seq<Ticket>, users: seq<User>) returns (result: seq<EngineerLoad>)
    ensures var staff := Staff(users);
            var total := PerGroup(tickets, ByAssignee, Load, Ids(staff));
            && |result| == |staff|
            && forall i :: 0 <= i < |staff| ==>
                 var load := Total(tickets, ByAssignee, Load, {staff[i].id});
                 result[i] == EngineerLoad(staff[i].id, staff[i].name, load, Overloaded(load, total, |staff|))
  {
    var staff: seq<User> := [];
    var i := 0;
    while i < |users|
      invariant 0 <= i <= |users| && staff == Staff(users[..i])
    {
      assert users[..i + 1][..i] == users[..i];
      if users[i].agent {
        staff := staff + [users[i]];
      }
      i := i + 1;
    }
    assert users[..i] == users;
    var load: map<int, nat> := map[];
    i := 0;
    while i < |tickets|
      invariant 0 <= i <= |tickets|
      invariant forall u :: Tally(load, u) == Total(tickets[..i], ByAssignee, Load, {u})
    {
      assert tickets[..i + 1] == tickets[..i] + [tickets[i]];
      var t := tickets[i];
      forall u ensures Total(tickets[..i + 1], ByAssignee, Load, {u})
                    == Total(tickets[..i], ByAssignee, Load, {u}) + if t.assignee == Some(u) && Active(t) then 1 else 0 {
        TotalSnoc(tickets[..i], t, ByAssignee, Load, {u});
      }
      if t.assignee.Some? && (t.status == New || t.status == InProgress) {
        load := load[t.assignee.value := Tally(load, t.assignee.value) + 1];
      }
      i := i + 1;
    }
    assert tickets[..i] == tickets;
    result := [];
    if |staff| == 0 {
      return;
    }
    var total := 0;
    i := 0;
    while i < |staff|
      invariant 0 <= i <= |staff| && total == PerGroup(tickets, ByAssignee, Load, Ids(staff)[..i])
    {
      assert Ids(staff)[..i + 1][..i] == Ids(staff)[..i];
      total := total + Tally(load, staff[i].id);
      i := i + 1;
    }
    assert Ids(staff)[..i] == Ids(staff);
    var threshold := total as real / |staff| as real + 1.0;
    i := 0;
    while i < |staff|
      invariant 0 <= i <= |staff| && |result| == i
      invariant forall j :: 0 <= j < i ==>
                  var l := Total(tickets, ByAssignee, Load, {staff[j].id});
                  result[j] == EngineerLoad(staff[j].id, staff[j].name, l, Overloaded(l, total, |staff|))
    {
      var l := Tally(load, staff[i].id);
      result := result + [EngineerLoad(staff[i].id, staff[i].name, l, l as real > threshold)];
      i := i + 1;
    }
  }

  function Tally(counts: map<int, nat>, k: int): nat { if k in counts then counts[k] else 0 }

  /** MAIN RESULT. Staff loads add up to the active tickets assigned to staff. */
  lemma LoadsAreTheActiveTickets(tickets: seq<Ticket>, staff: seq<User>)
    requires Distinct(Ids(staff))
    ensures PerGroup(tickets, ByAssignee, Load, Ids(staff)) == |StaffTickets(tickets, Keys(Ids(staff)))|
  {
    GroupsConserve(tickets, ByAssignee, Load, Ids(staff));
    LoadCountsTickets(tickets, Keys(Ids(staff)));
  }

  /** The positions of the tickets, new or in progress, assigned to one of `ids`. */
  function StaffTickets(tickets: seq<Ticket>, ids: set<int>): set<nat>
  {
    set i: nat | i < |tickets| && (tickets[i].status == New || tickets[i].status == InProgress)
                 && tickets[i].assignee.Some? && tickets[i].assignee.value in ids
  }

  lemma {:induction false} LoadCountsTickets(tickets: seq<Ticket>, ids: set<int>)
    ensures Total(tickets, ByAssignee, Load, ids) == |StaffTickets(tickets, ids)|
  {
    if tickets == [] {
      assert StaffTickets(tickets, ids) == {};
    } else {
      var n := |tickets| - 1;
      LoadCountsTickets(tickets[..n], ids);
      var before := StaffTickets(tickets[..n], ids);
      if Active(tickets[n]) && InGroup(tickets[n], ByAssignee, ids) {
        assert StaffTickets(tickets, ids) == before + {n};
      } else {
        assert StaffTickets(tickets, ids) == before;
      }
    }
  }

  /** Loads that add up to less than `bound` each on average include one below it. */
  lemma {:induction false} SomeoneBelow(tickets: seq<Ticket>, ids: seq<int>, bound: real) returns (i: nat)
    requires PerGroup(tickets, ByAssignee, Load, ids) as real < bound * |ids| as real
    ensures i < |ids| && Total(tickets, ByAssignee, Load, {ids[i]}) as real < bound
  {
    var k := |ids| - 1;
    if Total(tickets, ByAssignee, Load, {ids[k]}) as real < bound {
      i := k;
    } else {
      assert bound * |ids| as real == bound * k as real + bound;
      i := SomeoneBelow(tickets, ids[..k], bound);
    }
  }

  lemma Threshold(total: nat, n: nat) returns (bound: real)
    requires n > 0
    ensures total as real < bound * n as real
    ensures forall load: nat :: Overloaded(load, total, n) <==> load as real > bound
  {
    bound := total as real / n as real + 1.0;
    assert bound * n as real == total as real + n as real;
  }

  /** The flag in whole numbers: more than the average by more than one. */
  lemma FlagIsAboveAverage(load: nat, total: nat, n: nat)
    requires n > 0
    ensures Overloaded(load, total, n) <==> load * n > total + n
  {
    var mean := total as real / n as real;
    assert Overloaded(load, total, n) <==> load as real > mean + 1.0;
    AboveMean(load, total, n, mean);
  }

  lemma AboveMean(load: nat, total: nat, n: nat, mean: real)
    requires n > 0 && mean == total as real / n as real
    ensures load as real > mean + 1.0 <==> load * n > total + n
  {
    MeanPlusOne(mean, total as real, n as real);
    Scaled(load as real, mean + 1.0, n as real);
    Products(load, n);
    assert (mean + 1.0) * n as real == (total + n) as real;
  }

  lemma Products(a: nat, b: nat)
    ensures a as real * b as real == (a * b) as real
  {
  }

  lemma MeanPlusOne(mean: real, total: real, n: real)
    requires n > 0.0 && mean == total / n
    ensures (mean + 1.0) * n == total + n
  {
  }

  lemma Scaled(a: real, b: real, n: real)
    requires n > 0.0
    ensures a > b <==> a * n > b * n
  {
    assert a * n - b * n == (a - b) * n;
  }

  /** MAIN RESULT. However the tickets are spread, somebody on a nonempty staff is not flagged overloaded. */
  lemma NotEveryoneIsOverloaded(tickets: seq<Ticket>, staff: seq<User>)
    requires staff != []
    ensures exists i :: 0 <= i < |staff| &&
              !Overloaded(Total(tickets, ByAssignee, Load, {staff[i].id}),
                          PerGroup(tickets, ByAssignee, Load, Ids(staff)), |staff|)
  {
    var ids := Ids(staff);
    var total := PerGroup(tickets, ByAssignee, Load, ids);
    var bound := Threshold(total, |staff|);
    var i := SomeoneBelow(tickets, ids, bound);
    assert !Overloaded(Total(tickets, ByAssignee, Load, {staff[i].id}), total, |staff|);
  }

  lemma QueueStep(ts: seq<Ticket>, t: Ticket, m: Measure)
    ensures forall q :: Total(ts + [t], ByQueue, m, {q})
                     == Total(ts, ByQueue, m, {q}) + if t.queue == q then Weight(t, m) else 0
  {
    forall q ensures Total(ts + [t], ByQueue, m, {q})
                  == Total(ts, ByQueue, m, {q}) + if t.queue == q then Weight(t, m) else 0
    {
      TotalSnoc(ts, t, ByQueue, m, {q});
    }
  }

  function OpenTickets(tickets: seq<Ticket>, queue: int): set<nat>
  {
    set i: nat | i < |tickets| && tickets[i].queue == queue && tickets[i].status != Closed
  }

  function LateTickets(tickets: seq<Ticket>, queue: int, now: int): set<nat>
  {
    set i: nat | i < |tickets| && tickets[i].queue == queue && tickets[i].status != Closed
                 && tickets[i].slaDueAt.Some? && tickets[i].slaDueAt.value < now
  }

  lemma {:induction false} OpenCountsTickets(tickets: seq<Ticket>, queue: int)
    ensures Total(tickets, ByQueue, Open, {queue}) == |OpenTickets(tickets, queue)|
  {
    if tickets == [] {
      assert OpenTickets(tickets, queue) == {};
    } else {
      var n := |tickets| - 1;
      OpenCountsTickets(tickets[..n], queue);
      var before := OpenTickets(tickets[..n], queue);
      if tickets[n].queue == queue && tickets[n].status != Closed {
        assert OpenTickets(tickets, queue) == before + {n};
      } else {
        assert OpenTickets(tickets, queue) == before;
      }
    }
  }

  lemma {:induction false} LateCountsTickets(tickets: seq<Ticket>, queue: int, now: int)
    ensures Total(tickets, ByQueue, Breaching(now), {queue}) == |LateTickets(tickets, queue, now)|
  {
    if tickets == [] {
      assert LateTickets(tickets, queue, now) == {};
    } else {
      var n := |tickets| - 1;
      var t := tickets[n];
      LateCountsTickets(tickets[..n], queue, now);
      var before := LateTickets(tickets[..n], queue, now);
      if t.queue == queue && t.status != Closed && t.slaDueAt.Some? && t.slaDueAt.value < now {
        assert LateTickets(tickets, queue, now) == before + {n};
      } else {
        assert LateTickets(tickets, queue, now) == before;
      }
    }
  }

  /** What a queue's two counts count: its tickets that are not closed, and those of them past their due time. */
  lemma QueueCountsTickets(tickets: seq<Ticket>, queue: int, now: int)
    ensures Total(tickets, ByQueue, Open, {queue}) == |OpenTickets(tickets, queue)|
    ensures Total(tickets, ByQueue, Breaching(now), {queue}) == |LateTickets(tickets, queue, now)|
  {
    OpenCountsTickets(tickets, queue);
    LateCountsTickets(tickets, queue, now);
  }

  ghost predicate Tallied(counts: map<int, nat>, ts: seq<Ticket>, m: Measure)
  {
    forall q :: q in counts ==> counts[q] == Total(ts, ByQueue, m, {q})
  }

  lemma TalliedStep(counts: map<int, nat>, ts: seq<Ticket>, t: Ticket, m: Measure)
    requires Tallied(counts, ts, m)
    ensures t.queue in counts && Weight(t, m) == 1 ==> Tallied(counts[t.queue := counts[t.queue] + 1], ts + [t], m)
    ensures t.queue !in counts || Weight(t, m) == 0 ==> Tallied(counts, ts + [t], m)
  {
    QueueStep(ts, t, m);
  }

  datatype Queue = Queue(id: int, name: string)

  datatype QueueStat = QueueStat(queueId: int, name: string, open: nat, breaching: nat)

  method QueueStats(tickets: seq<Ticket>, queues: seq<Queue>, now: int) returns (result: seq<QueueStat>)
    ensures |result| == |queues|
    ensures forall i :: 0 <= i < |queues| ==>
              result[i] == QueueStat(queues[i].id, queues[i].name,
                                     Total(tickets, ByQueue, Open, {queues[i].id}),
                                     Total(tickets, ByQueue, Breaching(now), {queues[i].id}))
  {
    var open: map<int, nat>, breaching: map<int, nat> := map[], map[];
    var i := 0;
    while i < |queues|
      invariant 0 <= i <= |queues|
      invariant forall j :: 0 <= j < i ==> queues[j].id in open
      invariant open.Keys == breaching.Keys && forall q :: q in open ==> open[q] == 0 && breaching[q] == 0
    {
      open, breaching := open[queues[i].id := 0], breaching[queues[i].id := 0];
      i := i + 1;
    }
    i := 0;
    while i < |tickets|
      invariant 0 <= i <= |tickets|
      invariant forall j :: 0 <= j < |queues| ==> queues[j].id in open
      invariant open.Keys == breaching.Keys
      invariant Tallied(open, tickets[..i], Open) && Tallied(breaching, tickets[..i], Breaching(now))
    {
      assert tickets[..i + 1] == tickets[..i] + [tickets[i]];
      var t := tickets[i];
      TalliedStep(open, tickets[..i], t, Open);
      TalliedStep(breaching, tickets[..i], t, Breaching(now));
      if t.queue in open && t.status != Closed {
        open := open[t.queue := open[t.queue] + 1];
        if t.slaDueAt.Some? && now > t.slaDueAt.value {
          breaching := breaching[t.queue := breaching[t.queue] + 1];
        }
      }
      i := i + 1;
    }
    assert tickets[..i] == tickets;
    result := [];
    i := 0;
    while i < |queues|
      invariant 0 <= i <= |queues| && |result| == i
      invariant forall j :: 0 <= j < i ==>
                  result[j] == QueueStat(queues[j].id, queues[j].name, open[queues[j].id], breaching[queues[j].id])
    {
      var q := queues[i];
      result := result + [QueueStat(q.id, q.name, open[q.id], breaching[q.id])];
      i := i + 1;
    }
  }
}
