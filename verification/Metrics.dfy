/** The rolling window of finishes per minute. `Gauge` is the metrics row as a value, `Metric`
    the row that `emq_collect_metrics_v1` updates in place. */
module Metrics {
  import opened Rows

  datatype Gauge = Gauge(count: int, prevTs: Option<Millis>, prevCount: int, data: seq<int>)

  const EMPTY := Gauge(0, None, 0, [])

  function Minute(t: Millis): int {
    t / 60000
  }

  /** Minutes are counted in whole spans of sixty seconds. */
  lemma MinuteSpans(t: Millis, m: int)
    ensures Minute(t) == m <==> 60 * 1000 * m <= t < 60 * 1000 * (m + 1)
  {}

  function Min(a: int, b: int): int {
    if a < b then a else b
  }

  function Zeros(n: nat): (r: seq<int>)
    ensures |r| == n && forall i | 0 <= i < n :: r[i] == 0
  {
    seq(n, i => 0)
  }

  /** One finish counted at time `ts`. */
  function Collected(g: Gauge, ts: Millis, max: nat): Gauge {
    if g.prevTs.None? then Gauge(g.count + 1, Some(ts), 0, g.data)
    else
      var n := Min(Minute(ts) - Minute(g.prevTs.value), max);
      if n <= 0 then g.(count := g.count + 1)
      else
        var data := Zeros(n - 1) + [g.count - g.prevCount] + g.data;
        Gauge(g.count + 1, Some(ts), g.count, if |data| > max then data[..max] else data)
  }

  // ---------------------------------------------------------------- the row, in place

  class Metric {
    var count: int
    var prevTs: Option<Millis>
    var prevCount: int
    var data: seq<int>

    ghost function Value(): Gauge
      reads this
    {
      Gauge(count, prevTs, prevCount, data)
    }

    constructor ()
      ensures Value() == EMPTY
    {
      count, prevTs, prevCount, data := 0, None, 0, [];
    }

    method Collect(ts: Millis, max: nat)
      modifies this
      ensures Value() == Collected(old(Value()), ts, max)
    {
      var before := count;
      count := count + 1;
      if prevTs.None? {
        prevTs, prevCount := Some(ts), 0;
        return;
      }
      var n := Min(Minute(ts) - Minute(prevTs.value), max);
      if n > 0 {
        var points: seq<int> := [];
        for i := 1 to n
          invariant points == Zeros(i - 1)
        {
          points := points + [0];
        }
        points := points + [before - prevCount] + data;
        if |points| > max {
          points := points[..max];
        }
        data, prevCount, prevTs := points, before, Some(ts);
      }
    }
  }

  // ---------------------------------------------------------------- history

  /** How many of the finishes fell into minute `m`. */
  function InMinute(h: seq<Millis>, m: int): nat {
    if h == [] then 0
    else InMinute(h[..|h| - 1], m) + (if Minute(h[|h| - 1]) == m then 1 else 0)
  }

  predicate InOrderOfTime(h: seq<Millis>) {
    forall i, j | 0 <= i < j < |h| :: h[i] <= h[j]
  }

  function Last(h: seq<Millis>): Millis
    requires h != []
  {
    h[|h| - 1]
  }

  /** The row tells the finishes of the last `max` minutes, and those of the current one. */
  ghost predicate Tells(g: Gauge, h: seq<Millis>, max: nat) {
    && g.count == |h| && InOrderOfTime(h)
    && (g.prevTs.None? <==> h == [])
    && (h == [] ==> g.data == [])
    && (h != [] ==>
          var cur := Minute(Last(h));
          && Minute(g.prevTs.value) == cur && g.count - g.prevCount == InMinute(h, cur)
          && |g.data| == Min(max, cur - Minute(h[0]))
          && forall i | 0 <= i < |g.data| :: g.data[i] == InMinute(h, cur - 1 - i))
  }

  lemma {:induction false} NoneInMinute(h: seq<Millis>, m: int)
    requires forall i | 0 <= i < |h| :: Minute(h[i]) != m
    ensures InMinute(h, m) == 0
  {
    if h != [] { NoneInMinute(h[..|h| - 1], m); }
  }

  lemma MinuteMonotone(a: Millis, b: Millis)
    requires a <= b
    ensures Minute(a) <= Minute(b)
  {}

  lemma NothingBetween(h: seq<Millis>, m: int)
    requires h != [] && InOrderOfTime(h) && m > Minute(Last(h))
    ensures InMinute(h, m) == 0
  {
    forall i | 0 <= i < |h| ensures Minute(h[i]) != m { MinuteMonotone(h[i], Last(h)); }
    NoneInMinute(h, m);
  }

  lemma InMinuteMore(h: seq<Millis>, ts: Millis, m: int)
    ensures InMinute(h + [ts], m) == InMinute(h, m) + (if Minute(ts) == m then 1 else 0)
  {
    assert (h + [ts])[..|h|] == h;
  }

  lemma CurrentMinuteCounts(h: seq<Millis>)
    requires h != []
    ensures InMinute(h, Minute(Last(h))) >= 1
  {}

  /** The minutes since the previous finish. */
  function Gap(h: seq<Millis>, ts: Millis): int {
    if h == [] then 0 else Minute(ts) - Minute(Last(h))
  }

  lemma SameMinuteTells(g: Gauge, h: seq<Millis>, ts: Millis, max: nat)
    requires Tells(g, h, max) && (h == [] || (Last(h) <= ts && Gap(h, ts) == 0))
    ensures Tells(Collected(g, ts, max), h + [ts], max)
  {
    var h' := h + [ts];
    forall m ensures InMinute(h', m) == InMinute(h, m) + (if Minute(ts) == m then 1 else 0) { InMinuteMore(h, ts, m); }
    if h != [] { assert h'[0] == h[0]; }
  }

  lemma DataAt(g: Gauge, h: seq<Millis>, ts: Millis, max: nat, i: nat)
    requires Tells(g, h, max) && h != [] && Last(h) <= ts && 0 < Gap(h, ts) <= max && i < |Collected(g, ts, max).data|
    ensures Collected(g, ts, max).data[i] == InMinute(h + [ts], Minute(ts) - 1 - i)
  {
    var n := Gap(h, ts);
    InMinuteMore(h, ts, Minute(ts) - 1 - i);
    if i < n - 1 { NothingBetween(h, Minute(ts) - 1 - i); }
  }

  lemma NextMinuteTells(g: Gauge, h: seq<Millis>, ts: Millis, max: nat)
    requires Tells(g, h, max) && h != [] && Last(h) <= ts && 0 < Gap(h, ts) <= max
    ensures Tells(Collected(g, ts, max), h + [ts], max)
  {
    var h', g' := h + [ts], Collected(g, ts, max);
    assert h'[0] == h[0] && Last(h') == ts;
    InMinuteMore(h, ts, Minute(ts));
    NothingBetween(h, Minute(ts));
    forall i | 0 <= i < |g'.data| ensures g'.data[i] == InMinute(h', Minute(ts) - 1 - i) { DataAt(g, h, ts, max, i); }
    MinuteMonotone(h[0], Last(h));
  }

  lemma LongGapMistells(g: Gauge, h: seq<Millis>, ts: Millis, max: nat)
    requires Tells(g, h, max) && h != [] && Last(h) <= ts && Gap(h, ts) > max >= 1
    ensures !Tells(Collected(g, ts, max), h + [ts], max)
  {
    var h', g' := h + [ts], Collected(g, ts, max);
    assert Last(h') == ts;
    InMinuteMore(h, ts, Minute(ts) - max);
    NothingBetween(h, Minute(ts) - max);
    CurrentMinuteCounts(h);
    assert g'.data[max - 1] == g.count - g.prevCount;
  }

  /** A finish keeps the row telling the truth exactly when at most `max` minutes have passed
      since the one before. */
  lemma CollectTellsExactly(g: Gauge, h: seq<Millis>, ts: Millis, max: nat)
    requires Tells(g, h, max) && (h == [] || Last(h) <= ts) && max >= 1
    ensures Tells(Collected(g, ts, max), h + [ts], max) <==> Gap(h, ts) <= max
  {
    if h != [] {
      MinuteMonotone(Last(h), ts);
      if Gap(h, ts) == 0 { SameMinuteTells(g, h, ts, max); }
      else if Gap(h, ts) <= max { NextMinuteTells(g, h, ts, max); }
      else { LongGapMistells(g, h, ts, max); }
    } else {
      SameMinuteTells(g, h, ts, max);
    }
  }

  function Gauged(h: seq<Millis>, max: nat): Gauge {
    if h == [] then EMPTY else Collected(Gauged(h[..|h| - 1], max), h[|h| - 1], max)
  }

  /** After any history without a longer gap, entry `i` is the number of finishes in the minute
      `i + 1` before the current one. */
  lemma {:induction false} HistoryIsTold(h: seq<Millis>, max: nat)
    requires InOrderOfTime(h) && max >= 1
    requires forall i | 0 < i < |h| :: Minute(h[i]) - Minute(h[i - 1]) <= max
    ensures Tells(Gauged(h, max), h, max)
  {
    if h != [] {
      var front := h[..|h| - 1];
      HistoryIsTold(front, max);
      assert h == front + [Last(h)];
      CollectTellsExactly(Gauged(front, max), front, Last(h), max);
    }
  }

  /** The list never outgrows its limit, whatever the gaps. */
  lemma {:induction false} DataStaysShort(h: seq<Millis>, max: nat)
    ensures |Gauged(h, max).data| <= max
  {
    if h != [] { DataStaysShort(h[..|h| - 1], max); }
  }
}
