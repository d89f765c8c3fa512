/** Job schedulers: which slot comes next, and the guarded advance from one slot to the next. */
module Scheduling {
  import opened Rows

  /** `every` milliseconds, or a pattern whose strategy has answered `tick`. */
  datatype Cadence = Every(every: int) | Pattern(tick: Option<Millis>)

  /** What the scheduler row holds when a slot is planned; `storedNext` is absent before the
      first upsert and counts as absent when `every` has changed since. */
  datatype Stored = Stored(every: Option<int>, next: Option<Millis>, offset: Option<int>)

  datatype Plan = Plan(next: Millis, offset: int)

  function Max(a: int, b: int): int {
    if a < b then b else a
  }

  /** The offset in force: the caller's, else the stored one. */
  function Effective(offset: Option<int>, s: Stored): Option<int> {
    if offset.Some? then offset else s.offset
  }

  function Value0(o: Option<int>): int {
    if o.Some? then o.value else 0
  }

  /** The first slot after `now` on the grid of `every`, shifted. */
  function CatchUp(now: Millis, every: int, offset: int): Millis
    requires every > 0
  {
    TimeSlot(now, every) + every + offset
  }

  /** The slot a worker moves on to: one period further, or caught up with the clock. */
  function Following(prev: Millis, now: Millis, every: int, offset: int): Millis
    requires every > 0
  {
    if prev + every < now then CatchUp(now, every, offset) else prev + every
  }

  function KnownNext(s: Stored, every: int): Option<Millis> {
    if s.every.Some? && s.every.value != every then None else s.next
  }

  function PlannedSlot(s: Stored, every: int, now: Millis, start: Option<Millis>,
    offset: Option<int>, override: bool): Millis
    requires every > 0
  {
    var prev := KnownNext(s, every);
    if prev.None? then (if start.Some? && start.value > now then start.value else now)
    else if override then prev.value
    else Following(prev.value, now, every, Value0(Effective(offset, s)))
  }

  /** The grid slot at or before `t`. */
  function TimeSlot(t: Millis, every: int): Millis
    requires every > 0
  {
    t / every * every
  }

  function PlannedOffset(next: Millis, every: int, offset: Option<int>): int
    requires every > 0
  {
    if offset == None || offset == Some(0) then next - TimeSlot(next, every) else offset.value
  }

  function Planned(c: Cadence, s: Stored, clock: Millis, prevMillis: Millis,
    start: Option<Millis>, offset: Option<int>, override: bool): Plan
    requires c.Every? ==> c.every > 0
  {
    var now := Max(clock, prevMillis);
    match c
    case Pattern(tick) => Plan(if tick.Some? then Max(tick.value, now) else now, 0)
    case Every(every) =>
      var next := PlannedSlot(s, every, now, start, offset, override);
      Plan(next, PlannedOffset(next, every, Effective(offset, s)))
  }

  /** The planning part of `upsertJobScheduler`, step by step. */
  method PlanSlot(c: Cadence, s: Stored, clock: Millis, prevMillis: Millis,
    start: Option<Millis>, offset: Option<int>, override: bool)
    returns (nextMillis: Millis, newOffset: int)
    requires c.Every? ==> c.every > 0
    ensures Plan(nextMillis, newOffset) == Planned(c, s, clock, prevMillis, start, offset, override)
  {
    hide TimeSlot;
    var now := if prevMillis < clock then clock else prevMillis;
    nextMillis, newOffset := 0, 0;
    match c {
      case Pattern(tick) =>
        nextMillis := if tick.Some? then tick.value else now;
        if nextMillis < now { nextMillis := now; }
        newOffset := 0;
      case Every(every) =>
        var effectiveOffset := offset;
        if effectiveOffset.None? { effectiveOffset := s.offset; }
        var updatedEvery := s.every.Some? && s.every.value != every;
        var effectivePrev := if updatedEvery then None else s.next;
        if effectivePrev.None? {
          nextMillis := if start.Some? && start.value > now then start.value else now;
        } else if override {
          nextMillis := effectivePrev.value;
        } else {
          nextMillis := effectivePrev.value + every;
          if nextMillis < now {
            nextMillis := TimeSlot(now, every) + every + Value0(effectiveOffset);
          }
        }
        if effectiveOffset == None || effectiveOffset == Some(0) {
          var timeSlot := TimeSlot(nextMillis, every);
          newOffset := nextMillis - timeSlot;
        } else {
          newOffset := effectiveOffset.value;
        }
    }
  }

  /** The slot an `every` scheduler is planned for, said in times: the start date or the present on a first
      upsert or a new period, the stored slot again on a re-upsert, and otherwise one period further or,
      when that has passed, the next multiple of the period after the present plus the offset. The
      caller's offset goes before the stored one; without one, or with 0, the slot's remainder is kept. */
  lemma PlanExactly(every: int, s: Stored, clock: Millis, prevMillis: Millis, start: Option<Millis>,
    offset: Option<int>, override: bool, now: Millis)
    requires every > 0 && now >= clock && now >= prevMillis && (now == clock || now == prevMillis)
    ensures var p := Planned(Every(every), s, clock, prevMillis, start, offset, override);
      var given := if offset.Some? then offset else s.offset; var shift := if given.Some? then given.value else 0;
      && (s.next.None? || (s.every.Some? && s.every != Some(every)) ==>
            p.next >= now && (if start.Some? && start.value >= now then Some(p.next) == start else p.next == now))
      && (s.next.Some? && (s.every.None? || s.every == Some(every)) ==>
            if override then p.next == s.next.value
            else if now <= s.next.value + every then p.next == s.next.value + every
            else (p.next - shift) % every == 0 && now < p.next - shift <= now + every)
      && (if shift == 0 then (p.next - p.offset) % every == 0 && 0 <= p.offset < every else p.offset == shift)
  {
    hide TimeSlot;
    var p := Planned(Every(every), s, clock, prevMillis, start, offset, override);
    GridAfter(now, every);
    SlotRemainder(p.next, every);
  }

  lemma SlotRemainder(t: Millis, every: int)
    requires every > 0
    ensures TimeSlot(t, every) % every == 0 && 0 <= t - TimeSlot(t, every) < every
  {
    GridMultiple(t / every, every);
  }

  /** A pattern's slot is the strategy's answer, raised to the present. */
  lemma PatternExactly(tick: Option<Millis>, s: Stored, clock: Millis, prevMillis: Millis, start: Option<Millis>,
    offset: Option<int>, override: bool, now: Millis)
    requires now >= clock && now >= prevMillis && (now == clock || now == prevMillis)
    ensures Planned(Pattern(tick), s, clock, prevMillis, start, offset, override) ==
      Plan(if tick.Some? && tick.value >= now then tick.value else now, 0)
  {}

  // ---------------------------------------------------------------- slot arithmetic

  lemma GridAfter(now: Millis, every: int)
    requires every > 0
    ensures now < TimeSlot(now, every) + every <= now + every && (TimeSlot(now, every) + every) % every == 0
  {
    assert now == now / every * every + now % every;
    GridMultiple(now / every + 1, every);
    assert (now / every + 1) * every == now / every * every + every;
  }

  lemma GridMultiple(n: int, every: int)
    requires every > 0
    ensures (n * every) % every == 0
  {
    ModUnique(n * every, every, n, 0);
  }

  lemma ModUnique(x: int, m: int, q: int, r: int)
    requires m > 0 && 0 <= r < m && x == q * m + r
    ensures x % m == r && x / m == q
  {
    var q', r' := x / m, x % m;
    assert (q - q') * m == r' - r;
    if q - q' >= 1 { MultipleAtLeast(q - q', m); }
    if q' - q >= 1 { MultipleAtLeast(q' - q, m); }
  }

  lemma MultipleAtLeast(n: int, m: int)
    requires n >= 1 && m > 0
    ensures n * m >= m && -n * m <= -m
  {}

  lemma ShiftedMod(x: int, every: int, offset: int)
    requires every > 0 && x % every == 0 && 0 <= offset < every
    ensures (x + offset) % every == offset
  {
    ModUnique(x + offset, every, x / every, offset);
  }

  lemma NextPeriodMod(x: int, every: int)
    requires every > 0
    ensures (x + every) % every == x % every
  {
    ModUnique(x + every, every, x / every + 1, x % every);
  }

  /** One advance: with the offset of the grid the slots are on, the next slot stays on the grid,
      lies after the present one, and within two periods of the clock. */
  lemma FollowingSlot(prev: Millis, now: Millis, every: int)
    requires every > 0 && prev <= now
    ensures var next := Following(prev, now, every, prev % every);
      next % every == prev % every && prev < next && now <= next < now + 2 * every
  {
    GridAfter(now, every);
    ShiftedMod(TimeSlot(now, every) + every, every, prev % every);
    NextPeriodMod(prev, every);
  }

  /** The offset derived from a slot is the slot's place on the grid. */
  lemma DerivedOffset(next: Millis, every: int)
    requires every > 0
    ensures PlannedOffset(next, every, None) == PlannedOffset(next, every, Some(0)) == next % every
  {}

  lemma GridWitness(every: int)
    requires every > 0
    ensures CatchUp(-1, every, 0) == 0 && CatchUp(0, every, 0) == every
  {
    ModUnique(-1, every, -1, every - 1);
    ModUnique(0, every, 0, 0);
  }

  /** With an offset of the caller's choosing, catching up lands within two periods of the clock,
      whatever the clock, exactly when the offset is at least -1 and less than one period. */
  lemma CatchUpWindow(every: int, offset: int)
    requires every > 0
    ensures (forall now: Millis :: now <= CatchUp(now, every, offset) < now + 2 * every) <==> -1 <= offset < every
  {
    if -1 <= offset < every {
      forall now: Millis ensures now <= CatchUp(now, every, offset) < now + 2 * every { GridAfter(now, every); }
    } else {
      GridWitness(every);
      assert CatchUp(-1, every, offset) == offset && CatchUp(0, every, offset) == every + offset;
    }
  }

  /** The slots a chain of advances visits, the clock read at each. */
  function Chain(first: Millis, clocks: seq<Millis>, every: int): seq<Millis>
    requires every > 0
    ensures |Chain(first, clocks, every)| == |clocks| + 1
  {
    if clocks == [] then [first]
    else
      var front := Chain(first, clocks[..|clocks| - 1], every);
      front + [Following(front[|front| - 1], Max(clocks[|clocks| - 1], front[|front| - 1]), every, first % every)]
  }

  predicate Steps(from: Millis, to: Millis, clock: Millis, every: int) {
    from < to && Max(clock, from) <= to < Max(clock, from) + 2 * every
  }

  predicate OnGrid(s: seq<Millis>, every: int, residue: int)
    requires every > 0
  {
    forall i | 0 <= i < |s| :: s[i] % every == residue
  }

  /** Each slot comes from the one before it at the clock read there. */
  predicate StepByStep(s: seq<Millis>, clocks: seq<Millis>, every: int)
    requires |s| == |clocks| + 1
  {
    forall i | 0 <= i < |clocks| :: Steps(s[i], s[i + 1], clocks[i], every)
  }

  /** All slots of a chain are on the grid of the first, each after the one before and within two
      periods of the clock (raised to the slot it comes from) at which it was chosen. */
  lemma {:induction false} ChainOnGrid(first: Millis, clocks: seq<Millis>, every: int)
    requires every > 0
    ensures OnGrid(Chain(first, clocks, every), every, first % every)
    ensures StepByStep(Chain(first, clocks, every), clocks, every)
  {
    if clocks != [] {
      hide Following, Steps;
      var n := |clocks| - 1;
      var front := Chain(first, clocks[..n], every);
      ChainOnGrid(first, clocks[..n], every);
      ChainStep(front[n], clocks[n], every, first);
      ChainGrows(front, clocks, Following(front[n], Max(clocks[n], front[n]), every, first % every),
        every, first % every);
    }
  }

  lemma ChainGrows(front: seq<Millis>, clocks: seq<Millis>, next: Millis, every: int, residue: int)
    requires every > 0 && clocks != [] && |front| == |clocks|
    requires OnGrid(front, every, residue) && StepByStep(front, clocks[..|clocks| - 1], every)
    requires next % every == residue && Steps(front[|front| - 1], next, clocks[|clocks| - 1], every)
    ensures OnGrid(front + [next], every, residue) && StepByStep(front + [next], clocks, every)
  {
    hide Steps;
    var s := front + [next];
    forall i | 0 <= i < |clocks| ensures Steps(s[i], s[i + 1], clocks[i], every) {
      if i < |clocks| - 1 { assert clocks[..|clocks| - 1][i] == clocks[i]; }
    }
  }

  lemma ChainStep(prev: Millis, clock: Millis, every: int, first: Millis)
    requires every > 0 && prev % every == first % every
    ensures var next := Following(prev, Max(clock, prev), every, first % every);
      next % every == first % every && Steps(prev, next, clock, every)
  {
    FollowingSlot(prev, Max(clock, prev), every);
  }

  // ---------------------------------------------------------------- the guarded advance

  /** The scheduler row and the job rows of its slots; a job carries the number of its iteration. */
  datatype Chart = Chart(next: Option<Millis>, iterations: nat, jobs: map<Millis, nat>)

  /** What a worker brings when it has claimed the job of a slot. `lands` says whether the insert
      that follows a successful advance takes place. */
  datatype Visit = Visit(slot: Millis, target: Millis, lands: bool)

  predicate LimitReached(limit: Option<int>, count: nat) {
    limit.Some? && count + 1 > limit.value
  }

  /** `emq_update_job_scheduler_v1`: the producer must be the present slot, and the target must
      not have a job already. A slot that is not positive sends no producer. */
  predicate Accepts(c: Chart, v: Visit) {
    c.next.Some? && (v.slot > 0 ==> v.slot == c.next.value) && v.target !in c.jobs
  }

  /** A worker claims the job of `v.slot`, for the first time or again, and tries to move on. */
  function Visited(c: Chart, limit: Option<int>, v: Visit): Chart
    requires v.slot in c.jobs
  {
    if LimitReached(limit, c.jobs[v.slot]) || !Accepts(c, v) then c
    else
      Chart(Some(v.target), c.iterations + 1, if v.lands then c.jobs[v.target := c.jobs[v.slot] + 1] else c.jobs)
  }

  class Scheduler {
    var next: Option<Millis>
    var iterations: nat
    var jobs: map<Millis, nat>

    ghost function Value(): Chart
      reads this
    {
      Chart(next, iterations, jobs)
    }

    /** The first upsert: the row, and the job of its first slot. */
    constructor (first: Millis)
      ensures Value() == Chart(Some(first), 1, map[first := 1])
    {
      next, iterations, jobs := Some(first), 1, map[first := 1];
    }

    /** The guarded update alone. */
    method Update(producer: Option<Millis>, target: Millis) returns (advanced: bool)
      modifies this
      ensures advanced == (old(next).Some? && (producer.Some? ==> producer == old(next)) && target !in old(jobs))
      ensures jobs == old(jobs)
      ensures if advanced then next == Some(target) && iterations == old(iterations) + 1
              else next == old(next) && iterations == old(iterations)
    {
      if next.None? { return false; }
      if producer.Some? && producer != next { return false; }
      if target in jobs { return false; }
      next, iterations := Some(target), iterations + 1;
      return true;
    }

    /** The worker's side: limit check, guarded update, insert of the next iteration. */
    method Advance(limit: Option<int>, v: Visit)
      requires v.slot in jobs
      modifies this
      ensures Value() == Visited(old(Value()), limit, v)
    {
      var count := jobs[v.slot] + 1;
      if limit.Some? && count > limit.value { return; }
      var advanced := Update(if v.slot > 0 then Some(v.slot) else None, v.target);
      if advanced && v.lands {
        jobs := jobs[v.target := count];
      }
    }
  }

  /** A visit moves the scheduler on if and only if the next iteration is within the limit, the visited
      slot, if positive, is the present one, and the target has no job; then the target is the present slot
      and, if the insert takes place, has the job of the next iteration. */
  lemma VisitExactly(c: Chart, limit: Option<int>, v: Visit)
    requires v.slot in c.jobs
    ensures var c' := Visited(c, limit, v);
      if (limit.Some? ==> c.jobs[v.slot] < limit.value) && c.next.Some? && (v.slot <= 0 || c.next == Some(v.slot))
         && v.target !in c.jobs
      then
        && c'.next == Some(v.target) && c'.iterations == c.iterations + 1
        && c'.jobs.Keys == c.jobs.Keys + (if v.lands then {v.target} else {})
        && (forall s | s in c.jobs :: c'.jobs[s] == c.jobs[s])
        && (v.lands ==> c'.jobs[v.target] == c.jobs[v.slot] + 1)
      else c' == c
  {}

  datatype Event = Visits(visit: Visit) | Removes(slot: Millis)

  /** Only a job that is there can be claimed. */
  predicate Possible(c: Chart, e: Event) {
    e.Visits? ==> e.visit.slot in c.jobs
  }

  function Happened(c: Chart, limit: Option<int>, e: Event): Chart
    requires Possible(c, e)
  {
    match e
    case Visits(v) => Visited(c, limit, v)
    case Removes(s) => c.(jobs := c.jobs - {s})
  }

  ghost predicate PossibleRun(c: Chart, limit: Option<int>, es: seq<Event>)
    decreases |es|, 0
  {
    es == [] || (PossibleRun(c, limit, es[..|es| - 1]) && Possible(RunOf(c, limit, es[..|es| - 1]), es[|es| - 1]))
  }

  ghost function RunOf(c: Chart, limit: Option<int>, es: seq<Event>): Chart
    requires PossibleRun(c, limit, es)
    decreases |es|, 1
  {
    if es == [] then c else Happened(RunOf(c, limit, es[..|es| - 1]), limit, es[|es| - 1])
  }

  /** The slots advanced from, in order. */
  ghost function AdvancedFrom(c: Chart, limit: Option<int>, es: seq<Event>): seq<Millis>
    requires PossibleRun(c, limit, es)
  {
    if es == [] then []
    else
      var front := es[..|es| - 1];
      var prev, e := RunOf(c, limit, front), es[|es| - 1];
      AdvancedFrom(c, limit, front) + (if Moves(prev, limit, e) then [e.visit.slot] else [])
  }

  /** The event advances the scheduler. */
  predicate Moves(c: Chart, limit: Option<int>, e: Event)
    requires Possible(c, e)
  {
    e.Visits? && !LimitReached(limit, c.jobs[e.visit.slot]) && Accepts(c, e.visit)
  }

  lemma RunMore(c: Chart, limit: Option<int>, es: seq<Event>, e: Event)
    requires PossibleRun(c, limit, es) && Possible(RunOf(c, limit, es), e)
    ensures PossibleRun(c, limit, es + [e])
    ensures RunOf(c, limit, es + [e]) == Happened(RunOf(c, limit, es), limit, e)
    ensures AdvancedFrom(c, limit, es + [e])
      == AdvancedFrom(c, limit, es) + (if Moves(RunOf(c, limit, es), limit, e) then [e.visit.slot] else [])
  {
    assert (es + [e])[..|es|] == es;
  }

  // ---------------------------------------------------------------- targets that never lie before their slots

  /** No target of the run lies before its slot. */
  predicate AllForward(es: seq<Event>) {
    forall i | 0 <= i < |es| && es[i].Visits? :: es[i].visit.target >= es[i].visit.slot
  }

  /** The job rows of slots never lie beyond the present slot, positive like the first one, and
      their numbers never exceed the iterations counted. */
  predicate Orderly(c: Chart) {
    c.next.Some? && c.next.value > 0 && forall s | s in c.jobs ::
      0 < s <= c.next.value && 1 <= c.jobs[s] <= c.iterations
  }

  lemma MovesForward(c: Chart, limit: Option<int>, e: Event)
    requires Orderly(c) && Possible(c, e) && (e.Visits? ==> e.visit.target >= e.visit.slot)
    ensures Orderly(Happened(c, limit, e))
    ensures if Moves(c, limit, e) then e.visit.slot == c.next.value < Happened(c, limit, e).next.value
            else Happened(c, limit, e).next == c.next
  {}

  /** In increasing order, and all before `end`. */
  predicate Ascending(a: seq<Millis>, end: Millis) {
    (forall i, j | 0 <= i < j < |a| :: a[i] < a[j]) && (forall i | 0 <= i < |a| :: a[i] < end)
  }

  /** While no target lies before its slot, a slot is advanced from at most once, and always in
      increasing order, however often its job is claimed again after a retry or a stall. */
  lemma {:induction false} AdvancesOnce(c: Chart, limit: Option<int>, es: seq<Event>)
    requires Orderly(c) && PossibleRun(c, limit, es) && AllForward(es)
    ensures Orderly(RunOf(c, limit, es)) && Ascending(AdvancedFrom(c, limit, es), RunOf(c, limit, es).next.value)
  {
    if es != [] {
      hide Moves, Happened;
      var front, e := es[..|es| - 1], es[|es| - 1];
      var prev := RunOf(c, limit, front);
      AdvancesOnce(c, limit, front);
      MovesForward(prev, limit, e);
      AscendingMore(AdvancedFrom(c, limit, front), prev.next.value, Happened(prev, limit, e).next.value);
    }
  }

  lemma AscendingMore(a: seq<Millis>, x: Millis, end: Millis)
    requires Ascending(a, x) && x <= end
    ensures Ascending(a, end) && (x < end ==> Ascending(a + [x], end))
  {}

  // ---------------------------------------------------------------- the limit of iterations

  /** The row and the job of the first upsert. */
  function FirstChart(first: Millis): Chart {
    Chart(Some(first), 1, map[first := 1])
  }

  /** Every target of the run is positive. */
  predicate AllPositive(es: seq<Event>) {
    forall i | 0 <= i < |es| && es[i].Visits? :: es[i].visit.target > 0
  }

  /** Slots and job numbers are positive, and the job of the present slot carries the last number. */
  predicate Numbered(c: Chart) {
    && c.next.Some? && c.next.value > 0 && (forall s | s in c.jobs :: s > 0 && c.jobs[s] >= 1)
    && (c.next.value in c.jobs ==> c.jobs[c.next.value] == c.iterations)
  }

  lemma {:induction false} IterationsBounded(first: Millis, limit: nat, es: seq<Event>)
    requires first > 0 && limit >= 1 && PossibleRun(FirstChart(first), Some(limit), es) && AllPositive(es)
    ensures var end := RunOf(FirstChart(first), Some(limit), es); Numbered(end) && end.iterations <= limit
  {
    if es != [] {
      IterationsBounded(first, limit, es[..|es| - 1]);
    }
  }

  /** The iterations materialised in a run, the first included. */
  ghost function Materialised(c: Chart, limit: Option<int>, es: seq<Event>): nat
    requires PossibleRun(c, limit, es)
  {
    1 + |AdvancedFrom(c, limit, es)|
  }

  lemma {:induction false} CountsAdvances(c: Chart, limit: Option<int>, es: seq<Event>)
    requires PossibleRun(c, limit, es)
    ensures RunOf(c, limit, es).iterations == c.iterations + |AdvancedFrom(c, limit, es)|
  {
    if es != [] { CountsAdvances(c, limit, es[..|es| - 1]); }
  }

  /** One upsert under limit `L` comes to at most `L` iterations in any run with positive slots,
      wherever they lie. */
  lemma AtMostLimitIterations(first: Millis, limit: nat, es: seq<Event>)
    requires first > 0 && limit >= 1 && PossibleRun(FirstChart(first), Some(limit), es) && AllPositive(es)
    ensures Materialised(FirstChart(first), Some(limit), es) <= limit
  {
    IterationsBounded(first, limit, es);
    CountsAdvances(FirstChart(first), Some(limit), es);
  }

  /** The limit is reached: every number of iterations up to it comes of some run with positive slots. */
  lemma {:induction false} LimitIsReached(first: Millis, limit: nat, n: nat) returns (es: seq<Event>)
    requires first > 0 && 1 <= n <= limit
    ensures PossibleRun(FirstChart(first), Some(limit), es) && AllPositive(es)
    ensures Materialised(FirstChart(first), Some(limit), es) == n
    ensures var c, slot := RunOf(FirstChart(first), Some(limit), es), first + n - 1;
      c.next == Some(slot) && slot in c.jobs && c.jobs[slot] == n && forall s | s in c.jobs :: s <= slot
  {
    if n == 1 {
      es := [];
    } else {
      var front := LimitIsReached(first, limit, n - 1);
      var e := Visits(Visit(first + n - 2, first + n - 1, true));
      RunMore(FirstChart(first), Some(limit), front, e);
      es := front + [e];
    }
  }

  // ---------------------------------------------------------------- slots that are not positive

  predicate Different(a: seq<Millis>) {
    forall i, j | 0 <= i < j < |a| :: a[i] != a[j]
  }

  /** No slot of the run is advanced from twice, if no target lies before its slot. */
  ghost predicate OncePerSlot(c: Chart, es: seq<Event>) {
    PossibleRun(c, None, es) && AllForward(es) ==> Different(AdvancedFrom(c, None, es))
  }

  /** A slot that is not positive names no producer, so there is nothing to check and a second
      claim of its job advances again. */
  lemma UnguardedAdvancesTwice(first: Millis) returns (es: seq<Event>)
    requires first <= 0
    ensures PossibleRun(FirstChart(first), None, es) && AllForward(es)
    ensures AdvancedFrom(FirstChart(first), None, es) == [first, first]
  {
    var c := FirstChart(first);
    var v, w := Visits(Visit(first, first + 10, true)), Visits(Visit(first, first + 20, true));
    es := [] + [v] + [w];
    RunMore(c, None, [], v);
    RunMore(c, None, [] + [v], w);
  }

  /** With targets that never lie before their slots, every run from a first slot on advances at
      most once from each slot exactly when that first slot is positive. */
  lemma OnceExactlyWhenPositive(first: Millis)
    ensures (forall es :: OncePerSlot(FirstChart(first), es)) <==> first > 0
  {
    if first > 0 {
      forall es ensures OncePerSlot(FirstChart(first), es) {
        if PossibleRun(FirstChart(first), None, es) && AllForward(es) { AdvancesOnce(FirstChart(first), None, es); }
      }
    } else {
      var es := UnguardedAdvancesTwice(first);
      assert !OncePerSlot(FirstChart(first), es) by {
        var a := AdvancedFrom(FirstChart(first), None, es);
        assert a[0] == a[1];
      }
    }
  }

  /** The slot of a first upsert is never before the clock, and so is positive. */
  lemma FirstSlotIsPositive(c: Cadence, s: Stored, clock: Millis, prev: Millis, start: Option<Millis>,
                            offset: Option<int>, override: bool)
    requires s.next.None? && clock > 0 && (c.Every? ==> c.every > 0)
    ensures Planned(c, s, clock, prev, start, offset, override).next >= clock
    ensures Orderly(FirstChart(Planned(c, s, clock, prev, start, offset, override).next))
  {}

  // ---------------------------------------------------------------- targets as a worker plans them

  /** What a worker that has claimed the job of `slot` plans at time `clock`, the offset stored
      with the scheduler being `offset`. */
  function PlannedFor(c: Chart, slot: Millis, clock: Millis, every: int, offset: int): Millis
    requires every > 0
  {
    Planned(Every(every), Stored(Some(every), c.next, Some(offset)), clock, slot, None, None, false).next
  }

  /** What the worker brings along, its own copy of the offset and the start date, makes no difference:
      the copy is the stored one, and a start date counts only before the first slot. */
  lemma PlannedForAll(c: Chart, slot: Millis, clock: Millis, every: int, offset: int,
    start: Option<Millis>, own: Option<int>)
    requires every > 0 && c.next.Some? && (own.None? || own == Some(offset))
    ensures Planned(Every(every), Stored(Some(every), c.next, Some(offset)), clock, slot, start, own, false).next
      == PlannedFor(c, slot, clock, every, offset)
  {}

  /** The offset stored with the first slot is the one in force at every later planning. */
  lemma OffsetStays(first: Millis, next: Millis, every: int, offset: Option<int>)
    requires every > 0
    ensures var stored := PlannedOffset(first, every, offset);
      next % every == first % every || stored != 0 ==> PlannedOffset(next, every, Some(stored)) == stored
  {}

  /** A slot that catching up reaches lies after the clock by the offset, on the grid it shifts. */
  lemma CatchUpLands(now: Millis, every: int, offset: int)
    requires every > 0
    ensures now + 1 + offset <= CatchUp(now, every, offset) <= now + every + offset
    ensures CatchUp(now, every, offset) % every == offset % every
  {
    GridAfter(now, every);
    var g := TimeSlot(now, every) + every;
    ModUnique(g + offset, every, g / every + offset / every, offset % every);
  }

  /** At the last millisecond before the grid's `n`th slot catching up reaches the slot after it. */
  lemma CatchUpAtEdge(n: int, every: int, offset: int)
    requires every > 0
    ensures CatchUp(n * every - 1, every, offset) == n * every + offset
  {
    ModUnique(n * every - 1, every, n - 1, every - 1);
  }

  /** A plan for an orderly chart lies at or after the claimed slot when the offset in force is at
      least -(every + 2), or the slots come from a pattern. */
  lemma PlannedForward(c: Chart, slot: Millis, cadence: Cadence, every: Option<int>, clock: Millis,
                       start: Option<Millis>, offset: Option<int>, stored: Option<int>)
    requires Orderly(c) && slot in c.jobs
    requires cadence.Every? ==>
      cadence.every > 0 && Value0(Effective(offset, Stored(every, c.next, stored))) >= -(cadence.every + 2)
    ensures Planned(cadence, Stored(every, c.next, stored), clock, slot, start, offset, false).next >= slot
  {
    hide TimeSlot;
    if cadence.Every? {
      CatchUpLands(Max(clock, slot), cadence.every, Value0(Effective(offset, Stored(every, c.next, stored))));
    }
  }

  ghost predicate PlansForward(c: Chart, every: int, offset: int)
    requires every > 0
  {
    forall slot, clock | slot in c.jobs :: PlannedFor(c, slot, clock, every, offset) >= slot
  }

  /** A slot two below the grid's, planned from one period and a millisecond later. */
  function EdgeSlot(n: int, every: int): Millis {
    (n - 1) * every - 2
  }

  lemma EdgePlan(c: Chart, n: int, every: int, offset: int)
    requires every > 0 && c.next == Some(EdgeSlot(n, every))
    ensures PlannedFor(c, EdgeSlot(n, every), n * every - 1, every, offset) == EdgeSlot(n, every) + every + 2 + offset
  {
    hide CatchUp;
    assert n * every == (n - 1) * every + every;
    CatchUpAtEdge(n, every, offset);
  }

  /** Whatever the slot and the clock, a worker never plans before the slot it holds exactly when
      the offset is at least -(every + 2). */
  lemma PlannedIsSensible(every: int, offset: int)
    requires every > 0
    ensures (forall c | Orderly(c) :: PlansForward(c, every, offset)) <==> offset >= -(every + 2)
  {
    if offset >= -(every + 2) {
      forall c, slot, clock | Orderly(c) && slot in c.jobs ensures PlannedFor(c, slot, clock, every, offset) >= slot {
        PlannedForward(c, slot, Every(every), Some(every), clock, None, None, Some(offset));
      }
    } else {
      var c := FirstChart(EdgeSlot(4, every));
      EdgePlan(c, 4, every, offset);
      assert Orderly(c) && !PlansForward(c, every, offset);
    }
  }

  /** The target of a visit is what a worker plans at some clock. */
  ghost predicate PlannedAt(c: Chart, e: Event, every: int, offset: int)
    requires every > 0
  {
    e.Visits? ==> exists clock :: e.visit.target == PlannedFor(c, e.visit.slot, clock, every, offset)
  }

  /** Every visit of the run brings the target a worker plans in the state it meets, whatever the
      clocks of the workers say. */
  ghost predicate PlannedRun(c: Chart, limit: Option<int>, es: seq<Event>, every: int, offset: int)
    requires every > 0
    decreases |es|
  {
    && PossibleRun(c, limit, es)
    && (es == [] ||
        (PlannedRun(c, limit, es[..|es| - 1], every, offset)
         && PlannedAt(RunOf(c, limit, es[..|es| - 1]), es[|es| - 1], every, offset)))
  }

  lemma PlannedMore(c: Chart, limit: Option<int>, es: seq<Event>, e: Event, every: int, offset: int)
    requires every > 0 && PlannedRun(c, limit, es, every, offset)
    requires Possible(RunOf(c, limit, es), e) && PlannedAt(RunOf(c, limit, es), e, every, offset)
    ensures PlannedRun(c, limit, es + [e], every, offset)
  {
    RunMore(c, limit, es, e);
    assert (es + [e])[..|es|] == es;
  }

  lemma {:induction false} PlannedRunForward(c: Chart, limit: Option<int>, es: seq<Event>, every: int, offset: int)
    requires every > 0 && offset >= -(every + 2) && Orderly(c) && PlannedRun(c, limit, es, every, offset)
    ensures AllForward(es)
  {
    if es != [] {
      hide PlannedFor, Orderly;
      var front, e := es[..|es| - 1], es[|es| - 1];
      PlannedRunForward(c, limit, front, every, offset);
      AdvancesOnce(c, limit, front);
      var prev := RunOf(c, limit, front);
      PlannedIsSensible(every, offset);
      assert PlansForward(prev, every, offset);
      forall i | 0 <= i < |front| ensures front[i] == es[i] {}
    }
  }

  predicate Increasing(a: seq<Millis>) {
    forall i, j | 0 <= i < j < |a| :: a[i] < a[j]
  }

  ghost predicate InOrder(first: Millis, limit: Option<int>, es: seq<Event>, every: int, offset: int)
    requires every > 0
  {
    PlannedRun(FirstChart(first), limit, es, every, offset) ==> Increasing(AdvancedFrom(FirstChart(first), limit, es))
  }

  /** Every planned run from `first` on advances in increasing order. */
  ghost predicate InOrderFrom(first: Millis, every: int, offset: int)
    requires every > 0
  {
    forall limit, es :: InOrder(first, limit, es, every, offset)
  }

  /** Workers that plan with one offset advance in increasing order, from every positive first slot
      and in every run, exactly when the offset is at least -(every + 2). */
  lemma AdvancesInOrder(every: int, offset: int)
    requires every > 0
    ensures (forall first | first > 0 :: InOrderFrom(first, every, offset)) <==> offset >= -(every + 2)
  {
    hide PlannedRun, PossibleRun, AdvancedFrom, RunOf, AllForward, InOrder;
    if offset >= -(every + 2) {
      forall first, limit, es | first > 0 ensures InOrder(first, limit, es, every, offset) {
        PlannedInOrder(first, limit, es, every, offset);
      }
    } else {
      var first, es := FallsBack(every, offset);
      assert !InOrder(first, None, es, every, offset) && !InOrderFrom(first, every, offset);
    }
  }

  lemma PlannedInOrder(first: Millis, limit: Option<int>, es: seq<Event>, every: int, offset: int)
    requires every > 0 && offset >= -(every + 2) && first > 0
    ensures InOrder(first, limit, es, every, offset)
  {
    hide RunOf, AdvancedFrom, AllForward;
    if PlannedRun(FirstChart(first), limit, es, every, offset) {
      PlannedRunForward(FirstChart(first), limit, es, every, offset);
      AdvancesOnce(FirstChart(first), limit, es);
    }
  }

  lemma PlannedIsPossible(c: Chart, limit: Option<int>, es: seq<Event>, every: int, offset: int)
    requires every > 0 && PlannedRun(c, limit, es, every, offset)
    ensures PossibleRun(c, limit, es)
  {}

  /** One advance of a planned run without a limit, its insert landing. */
  lemma Advances(c: Chart, es: seq<Event>, slot: Millis, clock: Millis, every: int, offset: int)
    returns (es': seq<Event>)
    requires every > 0 && PlannedRun(c, None, es, every, offset)
    requires var prev := RunOf(c, None, es);
      slot in prev.jobs && prev.next == Some(slot) && PlannedFor(prev, slot, clock, every, offset) !in prev.jobs
    ensures PlannedRun(c, None, es', every, offset) && PossibleRun(c, None, es')
    ensures var prev := RunOf(c, None, es); var target := PlannedFor(prev, slot, clock, every, offset);
      && RunOf(c, None, es') == Chart(Some(target), prev.iterations + 1, prev.jobs[target := prev.jobs[slot] + 1])
      && AdvancedFrom(c, None, es') == AdvancedFrom(c, None, es) + [slot]
  {
    hide PlannedFor, PlannedRun;
    PlannedIsPossible(c, None, es, every, offset);
    var prev := RunOf(c, None, es);
    var e := Visits(Visit(slot, PlannedFor(prev, slot, clock, every, offset), true));
    es' := es + [e];
    PlannedMore(c, None, es, e, every, offset);
    RunMore(c, None, es, e);
  }

  /** The job of a slot goes. */
  lemma JobGoes(c: Chart, es: seq<Event>, slot: Millis, every: int, offset: int) returns (es': seq<Event>)
    requires every > 0 && PlannedRun(c, None, es, every, offset)
    ensures PlannedRun(c, None, es', every, offset) && PossibleRun(c, None, es')
    ensures var prev := RunOf(c, None, es);
      RunOf(c, None, es') == prev.(jobs := prev.jobs - {slot})
        && AdvancedFrom(c, None, es') == AdvancedFrom(c, None, es)
  {
    es' := es + [Removes(slot)];
    PlannedMore(c, None, es, Removes(slot), every, offset);
    RunMore(c, None, es, Removes(slot));
  }

  /** A lower offset lets a late worker plan a slot before its own, and the next advance is from there. */
  lemma FallsBack(every: int, offset: int) returns (first: Millis, es: seq<Event>)
    requires every > 0 && offset < -(every + 2)
    ensures first > 0 && !InOrder(first, None, es, every, offset)
  {
    hide PlannedFor, RunOf, AdvancedFrom, PlannedRun;
    first := EdgeSlot(4, every);
    var c, back := FirstChart(first), first + every + 2 + offset;
    assert PlannedRun(c, None, [], every, offset) && RunOf(c, None, []) == c && AdvancedFrom(c, None, []) == [] by {
      NothingHappened(c, every, offset);
    }
    EdgePlan(c, 4, every, offset);
    es := Advances(c, [], first, 4 * every - 1, every, offset);
    es := JobGoes(c, es, first, every, offset);
    var prev := RunOf(c, None, es);
    assert PlannedFor(prev, back, back, every, offset) == back + every by { OnePeriod(prev, back, every, offset); }
    es := Advances(c, es, back, back, every, offset);
    var a := AdvancedFrom(c, None, es);
    assert a[0] == first && a[1] == back;
  }

  lemma NothingHappened(c: Chart, every: int, offset: int)
    requires every > 0
    ensures PlannedRun(c, None, [], every, offset) && RunOf(c, None, []) == c && AdvancedFrom(c, None, []) == []
  {}

  /** A worker that is not late plans one period on. */
  lemma OnePeriod(c: Chart, slot: Millis, every: int, offset: int)
    requires every > 0 && c.next == Some(slot)
    ensures PlannedFor(c, slot, slot, every, offset) == slot + every
  {
    hide CatchUp;
  }

  // ---------------------------------------------------------------- no slot twice

  /** Slots before the first fall back are on the first slot's grid, those after it on the grid of the
      offset; on the latter, and before it, slots only increase. */
  ghost predicate OnTwoGrids(c: Chart, a: seq<Millis>, every: int, offset: int)
    requires every > 0
  {
    && c.next.Some? && c.next.value > 0 && (forall s | s in c.jobs :: s > 0)
    && Different(a)
    && if c.next.value % every == offset % every then
         forall x | x in a && x % every == offset % every :: x < c.next.value
       else
         c.next.value >= every && forall x | x in a :: x < c.next.value && x % every == c.next.value % every
  }

  /** Catching up from a slot on the offset's own grid never leads before it. */
  lemma NoFallOnGrid(slot: Millis, now: Millis, every: int, offset: int)
    requires every > 0 && offset >= -(2 * every + 1) && slot + every < now && slot % every == offset % every
    ensures CatchUp(now, every, offset) >= slot
  {
    hide CatchUp;
    CatchUpLands(now, every, offset);
    var t := CatchUp(now, every, offset);
    if t < slot {
      assert t > slot - every;
      SameGridApart(t, slot, every);
    }
  }

  lemma SameGridApart(x: int, y: int, every: int)
    requires every > 0 && x % every == y % every && x < y
    ensures x <= y - every
  {
    assert (y / every - x / every) * every == y - x;
    if y / every - x / every <= 0 { MultipleAtMost(y / every - x / every, every); }
    else { MultipleAtLeast(y / every - x / every, every); }
  }

  lemma MultipleAtMost(n: int, m: int)
    requires n <= 0 && m > 0
    ensures n * m <= 0
  {}

  /** Where a planned target lies: one period on, or on the offset's grid. */
  lemma PlannedGrid(c: Chart, slot: Millis, clock: Millis, every: int, offset: int)
    requires every > 0 && offset >= -(2 * every + 1) && c.next == Some(slot)
    ensures var t := PlannedFor(c, slot, clock, every, offset);
      || (t == slot + every && t % every == slot % every)
      || (t % every == offset % every && t > slot - every && (slot % every == offset % every ==> t >= slot))
  {
    hide CatchUp, TimeSlot;
    var now := Max(clock, slot);
    NextPeriodMod(slot, every);
    CatchUpLands(now, every, offset);
    if slot + every < now && slot % every == offset % every { NoFallOnGrid(slot, now, every, offset); }
  }

  lemma TwoGridsMoved(c: Chart, a: seq<Millis>, t: Millis, every: int, offset: int)
    requires every > 0 && OnTwoGrids(c, a, every, offset) && t != c.next.value
    requires var slot := c.next.value;
      || (t == slot + every && t % every == slot % every)
      || (t % every == offset % every && t > slot - every && (slot % every == offset % every ==> t >= slot))
    ensures forall jobs, n | (forall s | s in jobs :: s in c.jobs || s == t) ::
      OnTwoGrids(Chart(Some(t), n, jobs), a + [c.next.value], every, offset)
  {
    var slot, a' := c.next.value, a + [c.next.value];
    assert slot !in a;
    assert Different(a');
    assert forall x | x in a' :: x in a || x == slot;
  }

  lemma {:induction false} PlannedOnTwoGrids(first: Millis, limit: Option<int>, es: seq<Event>, every: int, offset: int)
    requires every > 0 && offset >= -(2 * every + 1) && first >= every
    requires PlannedRun(FirstChart(first), limit, es, every, offset)
    ensures var c := FirstChart(first);
      PossibleRun(c, limit, es) && OnTwoGrids(RunOf(c, limit, es), AdvancedFrom(c, limit, es), every, offset)
  {
    if es != [] {
      var c, front, e := FirstChart(first), es[..|es| - 1], es[|es| - 1];
      PlannedOnTwoGrids(first, limit, front, every, offset);
      TwoGridsStep(RunOf(c, limit, front), limit, e, AdvancedFrom(c, limit, front), every, offset);
    }
  }

  lemma TwoGridsStep(c: Chart, limit: Option<int>, e: Event, a: seq<Millis>, every: int, offset: int)
    requires every > 0 && offset >= -(2 * every + 1) && OnTwoGrids(c, a, every, offset)
    requires Possible(c, e) && PlannedAt(c, e, every, offset)
    ensures OnTwoGrids(Happened(c, limit, e), a + (if Moves(c, limit, e) then [e.visit.slot] else []), every, offset)
  {
    hide PlannedFor, Different;
    if Moves(c, limit, e) {
      var v := e.visit;
      var clock :| v.target == PlannedFor(c, v.slot, clock, every, offset);
      assert v.slot == c.next.value;
      PlannedGrid(c, v.slot, clock, every, offset);
      TwoGridsMoved(c, a, v.target, every, offset);
    } else {
      assert a + [] == a;
    }
  }

  ghost predicate Once(first: Millis, limit: Option<int>, es: seq<Event>, every: int, offset: int)
    requires every > 0
  {
    PlannedRun(FirstChart(first), limit, es, every, offset) ==> Different(AdvancedFrom(FirstChart(first), limit, es))
  }

  /** Every planned run from `first` on advances at most once from each slot. */
  ghost predicate OnceFrom(first: Millis, every: int, offset: int)
    requires every > 0
  {
    forall limit, es :: Once(first, limit, es, every, offset)
  }

  /** Workers that plan with one offset advance at most once from each slot, from every first slot
      not below the period and in every run, exactly when the offset is at least -(2 * every + 1). */
  lemma AdvancesOnceExactly(every: int, offset: int)
    requires every > 0
    ensures (forall first | first >= every :: OnceFrom(first, every, offset)) <==> offset >= -(2 * every + 1)
  {
    hide PlannedRun, PossibleRun, AdvancedFrom, RunOf, Once;
    if offset >= -(2 * every + 1) {
      forall first, limit, es | first >= every ensures Once(first, limit, es, every, offset) {
        PlannedOnce(first, limit, es, every, offset);
      }
    } else {
      var first, es := ComesBack(every, offset);
      NotOnce(first, es, every, offset);
      assert !OnceFrom(first, every, offset);
    }
  }

  lemma PlannedOnce(first: Millis, limit: Option<int>, es: seq<Event>, every: int, offset: int)
    requires every > 0 && offset >= -(2 * every + 1) && first >= every
    ensures Once(first, limit, es, every, offset)
  {
    hide PlannedRun, AdvancedFrom, RunOf;
    if PlannedRun(FirstChart(first), limit, es, every, offset) { PlannedOnTwoGrids(first, limit, es, every, offset); }
  }

  lemma NotOnce(first: Millis, es: seq<Event>, every: int, offset: int)
    requires every > 0 && PlannedRun(FirstChart(first), None, es, every, offset)
    requires AdvancedFrom(FirstChart(first), None, es) == [first, first - every, first]
    ensures !Once(first, None, es, every, offset)
  {
    var a := AdvancedFrom(FirstChart(first), None, es);
    assert a[0] == a[2];
  }

  /** A still lower offset leads a late worker back by whole periods, and once the slot's job is gone
      the slot comes up again. */
  lemma ComesBack(every: int, offset: int) returns (first: Millis, es: seq<Event>)
    requires every > 0 && offset < -(2 * every + 1)
    ensures first >= every && PlannedRun(FirstChart(first), None, es, every, offset)
    ensures AdvancedFrom(FirstChart(first), None, es) == [first, first - every, first]
  {
    hide PlannedFor, RunOf, AdvancedFrom, PlannedRun;
    var n := 1 - offset;
    MultipleAtLeast(-offset, every);
    assert n * every == every + -offset * every;
    first := n * every + every + offset;
    var c := FirstChart(first);
    NothingHappened(c, every, offset);
    LatePlan(c, n, every, offset);
    es := ComesBackFrom(first, n * every - 1, every, offset);
  }

  lemma LatePlan(c: Chart, n: int, every: int, offset: int)
    requires every > 0 && offset < -(2 * every + 1) && c.next == Some(n * every + every + offset)
    ensures PlannedFor(c, c.next.value, n * every - 1, every, offset) == c.next.value - every
  {
    hide CatchUp;
    CatchUpAtEdge(n, every, offset);
  }

  /** The run, given a clock at which the first plan falls back by one period. */
  lemma ComesBackFrom(first: Millis, clock: Millis, every: int, offset: int) returns (es: seq<Event>)
    requires every > 0 && PlannedFor(FirstChart(first), first, clock, every, offset) == first - every
    ensures PlannedRun(FirstChart(first), None, es, every, offset)
    ensures AdvancedFrom(FirstChart(first), None, es) == [first, first - every, first]
  {
    hide PlannedFor, RunOf, AdvancedFrom, PlannedRun;
    var c := FirstChart(first);
    NothingHappened(c, every, offset);
    es := Advances(c, [], first, clock, every, offset);
    es := JobGoes(c, es, first, every, offset);
    OnePeriod(RunOf(c, None, es), first - every, every, offset);
    es := Advances(c, es, first - every, first - every, every, offset);
    OnePeriod(RunOf(c, None, es), first, every, offset);
    es := Advances(c, es, first, first, every, offset);
  }

  /** Every 10 milliseconds with offset -50, from slot 100: planned at 125 the next slot is 80, planned
      from there at 145 it is 100 again, and the scheduler advances from slot 100 a second time. */
  lemma SlotComesBack() returns (es: seq<Event>)
    ensures PlannedRun(FirstChart(100), None, es, 10, -50)
    ensures AdvancedFrom(FirstChart(100), None, es) == [100, 80, 100]
    ensures RunOf(FirstChart(100), None, es).next == Some(110)
  {
    hide RunOf, AdvancedFrom, PlannedRun;
    var c := FirstChart(100);
    NothingHappened(c, 10, -50);
    ModUnique(125, 10, 12, 5);
    es := Advances(c, [], 100, 125, 10, -50);
    es := JobGoes(c, es, 100, 10, -50);
    ModUnique(145, 10, 14, 5);
    es := Advances(c, es, 80, 145, 10, -50);
    ModUnique(155, 10, 15, 5);
    es := Advances(c, es, 100, 155, 10, -50);
  }
}
