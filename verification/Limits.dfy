/** The limits on claiming: the concurrency cap and the rate limiter, over whole runs. */
module Limits {
  import opened Rows
  import opened Ordering
  import opened Tables
  import opened Linking
  import opened Adding
  import opened Claiming
  import opened Ending
  import opened Managing
  import opened Flows
  import opened Machine
  import opened Frames
  import opened Lives
  import opened Routing

  // ---------------------------------------------------------------- queue settings

  predicate SameLimits(q: Queue, q': Queue) {
    q'.concurrency == q.concurrency && q'.limiter == q.limiter && q'.window == q.window
  }

  ghost predicate LimitsKept(db: Db, db': Db) {
    db'.now == db.now && forall q | q in db.queues :: q in db'.queues && SameLimits(db.queues[q], db'.queues[q])
  }

  lemma CalmLimits(db: Db, db': Db)
    requires Calm(db, db')
    ensures LimitsKept(db, db')
  {}

  lemma FinishLimits(db: Db, a: FinishArgs)
    requires LeasesSound(db) && Finishes(db, a)
    ensures LimitsKept(db, DoFinish(db, a))
  {
    hide Requeue, NotifyParents, Trim, Calm;
    var j := db.jobs[a.key];
    assert Sound(LifeOf(j)) && j.state == Active;
    var db1 := Put(db, a.key, EndedRow(j, a.ok, db.now));
    FinishTailCalm(db1, a, j.payload.opts);
    CalmLimits(db1, DoFinish(db, a));
  }

  lemma RetryLimits(db: Db, k: Key, t: Token, lifo: bool)
    ensures LimitsKept(db, Retry(db, k, t, lifo).0)
  {
    hide PromoteDue, Calm, PrioHead, Least, WaitSeqs;
    PromoteDueCalm(db, k.queue);
    CalmLimits(db, PromoteDue(db, k.queue));
  }

  lemma ReleaseLimits(db: Db, k: Key, t: Token)
    ensures LimitsKept(db, Release(db, k, t).0)
  {
    hide PrioHead, Least, WaitSeqs;
  }

  lemma ChangePriorityLimits(db: Db, k: Key, p: int, h: bool)
    ensures LimitsKept(db, ChangePriority(db, k, p, h).0)
  {
    hide PrioHead, Least, WaitSeqs;
  }

  lemma {:induction false} MoveSeqLimits(db: Db, ks: seq<Key>, from: JobState)
    ensures LimitsKept(db, MoveSeq(db, ks, from))
  {
    if ks != [] {
      MoveSeqLimits(db, ks[..|ks| - 1], from);
    }
  }

  lemma CutEdgeLimits(db: Db, c: Key, p: Key)
    ensures LimitsKept(db, CutEdge(db, c, p).0)
  {
    hide HasEdge, Linked;
  }

  /** Only a claim touches the limiter window, and nothing touches the settings. */
  lemma StepLimits(db: Db, op: Op)
    requires LeasesSound(db) && !op.OpClaim? && !op.OpTick?
    ensures LimitsKept(db, Step(db, op))
  {
    hide LeasesSound, Calm, EdgesCalm, DoFinish, Finishes, Add, AddNode, Retry, Release, Sweep, ChangePriority;
    hide MoveSeq, CutEdge, Sorted, Movable, FirstN, LimitsKept;
    CalmRefl(db);
    CalmLimits(db, db);
    match op
    case OpAdd(r) => AddGentle(db, r); CalmLimits(db, Step(db, op));
    case OpFlow(n, p) => AddFlowGentle(db, n, p); CalmLimits(db, Step(db, op));
    case OpFinish(a) => if Finishes(db, a) { FinishLimits(db, a); }
    case OpRetry(k, t, l) => RetryLimits(db, k, t, l);
    case OpRelease(k, t) => ReleaseLimits(db, k, t);
    case OpSweep(q, m) => SweepLimits(db, q, m);
    case OpChangePriority(k, p, h) => ChangePriorityLimits(db, k, p, h);
    case OpCutEdge(c, p) => CutEdgeLimits(db, c, p);
    case OpMoveBatch(q, f, n, t) =>
      var st := SourceState(f);
      MoveSeqLimits(db, FirstN(Sorted(BatchOrder(st), db.jobs, Movable(db, q, st, t)), n), st);
    case _ => OtherLimits(db, op);
  }

  lemma SweepLimits(db: Db, q: QueueId, m: int)
    ensures LimitsKept(db, Sweep(db, q, m))
  {
    hide Requeued, Stalled, SweptRow;
  }

  lemma OtherLimits(db: Db, op: Op)
    requires op.OpQueue? || op.OpDelay? || op.OpToChildren? || op.OpExtend?
      || op.OpExtendMany? || op.OpPause? || op.OpPromote? || op.OpReprocess?
    ensures LimitsKept(db, Step(db, op))
  {
    hide HasEdge, HasPendingChild, Renews;
  }

  lemma PreparedLimits(db: Db, q: QueueId)
    requires q in db.queues
    ensures var db1 := Prepared(db, q);
      && db1.now == db.now
      && (forall x | x in db.queues :: x in db1.queues && db1.queues[x].concurrency == db.queues[x].concurrency
            && db1.queues[x].limiter == db.queues[x].limiter
            && db1.queues[x].window == if x == q then LiveWindow(db.queues[q].window, db.now) else db.queues[x].window)
  {
    hide PromoteDue, Calm;
    PromoteDueCalm(DropExpiredWindow(db, q), q);
    CalmLimits(DropExpiredWindow(db, q), Prepared(db, q));
  }

  /** What a claim does to the limiter window of its queue. */
  lemma ClaimLimits(db: Db, a: ClaimArgs)
    ensures var db' := Claim(db, a);
      && db'.now == db.now
      && (forall x | x in db.queues :: x in db'.queues && db'.queues[x].concurrency == db.queues[x].concurrency
            && db'.queues[x].limiter == db.queues[x].limiter
            && db'.queues[x].window ==
                 if x != a.queue then db.queues[x].window
                 else if Takes(db, a) then
                   TakeToken(LiveWindow(db.queues[x].window, db.now), EffectiveLimiter(db, a), db.now)
                 else LiveWindow(db.queues[x].window, db.now))
      && (Takes(db, a) ==> !Throttled(LiveWindow(db.queues[a.queue].window, db.now), EffectiveLimiter(db, a), db.now))
  {
    hide Prepared, Picks, LiveLeases;
    if a.queue in db.queues { PreparedLimits(db, a.queue); }
  }

  // ---------------------------------------------------------------- the concurrency cap

  /** What a batch renewal makes of the live leases of its queue: those it renews come on top,
      whether or not they had run out. */
  lemma RenewalRevives(db: Db, q: QueueId, ls: seq<Lease>, ms: int)
    requires ms > 0
    ensures LiveLeases(ExtendMany(db, q, ls, ms), q) == LiveLeases(db, q) + Renewed(db, q, ls)
    ensures forall o | o != q :: LiveLeases(ExtendMany(db, q, ls, ms), o) == LiveLeases(db, o)
    ensures forall l | l in ls ::
      l.id in NotRenewed(db, q, ls) || Key(q, l.id) in LiveLeases(ExtendMany(db, q, ls, ms), q)
  {}

  /** A single renewal goes through for a live lease alone, and so revives none. */
  lemma SingleRenewalRevivesNone(db: Db, k: Key, t: Token, ms: int, q: QueueId)
    requires ms > 0
    ensures Extend(db, k, t, ms).1 == Ok <==> HeldBy(db, k, t) && k in LiveLeases(db, k.queue)
    ensures LiveLeases(Extend(db, k, t, ms).0, q) == LiveLeases(db, q)
  {}

  /** The step does not revive leases of queue `q` beyond the cap. */
  ghost predicate RenewsWithin(db: Db, op: Op, q: QueueId, c: nat) {
    op.OpExtendMany? && op.queue == q && op.durationMs > 0 ==> |LiveLeases(db, q) + Renewed(db, q, op.leases)| <= c
  }

  lemma LeasesKept(db: Db, e: Effect, db': Db, q: QueueId)
    requires AllLiveOn(db, e, db') && db'.now >= db.now && !e.Claims?
    requires e.Extends? ==> e.expires <= db'.now || forall k | k in e.keys && k.queue == q :: k in LiveLeases(db, q)
    ensures LiveLeases(db', q) <= LiveLeases(db, q)
  {
    forall k | k in LiveLeases(db', q) ensures k in LiveLeases(db, q) { assert LivesOn(db, e, db', k); }
  }

  lemma LeasesWithClaim(db: Db, e: Effect, db': Db, q: QueueId)
    requires AllLiveOn(db, e, db') && db'.now >= db.now && e.Claims?
    ensures LiveLeases(db', q) <= LiveLeases(db, q) + (if e.key.queue == q then {e.key} else {})
  {
    forall k | k in LiveLeases(db', q) ensures k in LiveLeases(db, q) + (if e.key.queue == q then {e.key} else {}) {
      assert LivesOn(db, e, db', k);
    }
  }

  lemma StepNow(db: Db, op: Op)
    requires LeasesSound(db)
    ensures Step(db, op).now == if op.OpTick? then db.now + op.ms else db.now
  {
    hide Add, AddNode, Finishes, DoFinish, Retry, Release, Sweep, ChangePriority, MoveBatch, CutEdge, Delay;
    hide ToChildren, Extend, ExtendMany, Pause, Promote, Reprocess, EnsureQueue, Claim;
    if op.OpClaim? { ClaimLimits(db, op.claim); }
    else if !op.OpTick? { StepLimits(db, op); }
  }

  lemma ActiveUnpromoted(db: Db, q: QueueId, x: QueueId)
    ensures LiveLeases(Prepared(db, q), x) == LiveLeases(db, x)
  {
    PreparedRows(db, q);
  }

  lemma ClaimUnderCap(db: Db, a: ClaimArgs, c: nat)
    requires Takes(db, a) && db.queues[a.queue].concurrency == Some(c)
    ensures |LiveLeases(db, a.queue)| < c && a.pick.queue == a.queue
  {
    hide Prepared, LiveLeases, Throttled;
    ActiveUnpromoted(db, a.queue, a.queue);
    PreparedLimits(db, a.queue);
  }

  /** A step from within the cap of the queue stays within it exactly when it revives no more
      leases than the cap leaves room for. */
  lemma StepCapped(db: Db, op: Op, q: QueueId, c: nat)
    requires LeasesSound(db) && q in db.queues && db.queues[q].concurrency == Some(c) && |LiveLeases(db, q)| <= c
    ensures q in Step(db, op).queues && Step(db, op).queues[q].concurrency == Some(c)
    ensures |LiveLeases(Step(db, op), q)| <= c <==> RenewsWithin(db, op, q, c)
  {
    hide Step, Takes, LiveLeases, AllLiveOn;
    var db', e := Step(db, op), EffectOf(db, op);
    StepLife(db, op);
    StepNow(db, op);
    ConcurrencyKept(db, op, q);
    if e.Claims? {
      LeasesWithClaim(db, e, db', q);
      ClaimAims(db, op);
      if e.key.queue == q {
        ClaimUnderCap(db, op.claim, c);
        SmallerSet(LiveLeases(db', q), LiveLeases(db, q) + {e.key});
      } else {
        SmallerSet(LiveLeases(db', q), LiveLeases(db, q));
      }
    } else if op.OpExtendMany? && op.queue == q && op.durationMs > 0 {
      RenewalRevives(db, q, op.leases, op.durationMs);
      BatchStep(db, op);
    } else {
      ExtendsLive(db, op, q);
      LeasesKept(db, e, db', q);
      SmallerSet(LiveLeases(db', q), LiveLeases(db, q));
    }
  }

  lemma BatchStep(db: Db, op: Op)
    requires op.OpExtendMany?
    ensures Step(db, op) == ExtendMany(db, op.queue, op.leases, op.durationMs)
  {
    hide ExtendMany;
  }

  lemma ClaimAims(db: Db, op: Op)
    requires EffectOf(db, op).Claims?
    ensures op.OpClaim? && Takes(db, op.claim) && EffectOf(db, op).key == op.claim.pick
    ensures op.claim.pick.queue == op.claim.queue
  {
    hide Prepared, GatesOpen;
  }

  lemma ExtendsLive(db: Db, op: Op, q: QueueId)
    requires !(op.OpExtendMany? && op.queue == q && op.durationMs > 0)
    ensures var e := EffectOf(db, op);
      e.Extends? ==> e.expires <= db.now || forall k | k in e.keys && k.queue == q :: k in LiveLeases(db, q)
  {
    hide Takes, Sorted, Movable, HasEdge, HasPendingChild;
  }

  lemma ConcurrencyKept(db: Db, op: Op, q: QueueId)
    requires LeasesSound(db) && q in db.queues
    ensures q in Step(db, op).queues && Step(db, op).queues[q].concurrency == db.queues[q].concurrency
    ensures Step(db, op).queues[q].limiter == db.queues[q].limiter
  {
    hide Add, AddNode, Finishes, DoFinish, Retry, Release, Sweep, ChangePriority, MoveBatch, CutEdge, Delay;
    hide ToChildren, Extend, ExtendMany, Pause, Promote, Reprocess, EnsureQueue, Claim;
    if op.OpClaim? { ClaimLimits(db, op.claim); }
    else if !op.OpTick? { StepLimits(db, op); }
  }

  /** No renewal of the run revives more leases of the queue than the cap leaves room for. */
  ghost predicate RenewsWithinRun(db: Db, ops: seq<Op>, q: QueueId, c: nat) {
    forall i | 0 <= i < |ops| :: RenewsWithin(At(db, ops, i), ops[i], q, c)
  }

  /** In every state of the run at most `c` jobs of the queue hold a lease still running. */
  ghost predicate CappedThroughout(db: Db, ops: seq<Op>, q: QueueId, c: nat) {
    forall i | 0 <= i <= |ops| :: |LiveLeases(At(db, ops, i), q)| <= c
  }

  lemma CappedFront(db: Db, ops: seq<Op>, q: QueueId, c: nat)
    requires ops != []
    ensures CappedThroughout(db, ops, q, c) <==>
      CappedThroughout(db, ops[..|ops| - 1], q, c) && |LiveLeases(Run(db, ops), q)| <= c
  {
    hide Run, LiveLeases;
    var front, n := ops[..|ops| - 1], |ops|;
    assert ops[..n] == ops;
    forall i | 0 <= i < n ensures front[..i] == ops[..i] {}
    forall i | 0 <= i <= |front| ensures At(db, front, i) == At(db, ops, i) {}
    assert At(db, ops, n) == Run(db, ops);
  }

  lemma RenewsFront(db: Db, ops: seq<Op>, q: QueueId, c: nat)
    requires ops != []
    ensures RenewsWithinRun(db, ops, q, c) <==>
      RenewsWithinRun(db, ops[..|ops| - 1], q, c) && RenewsWithin(Run(db, ops[..|ops| - 1]), ops[|ops| - 1], q, c)
  {
    hide Run, RenewsWithin;
    var front, n := ops[..|ops| - 1], |ops| - 1;
    forall i | 0 <= i < n ensures front[..i] == ops[..i] {}
    forall i | 0 <= i < n ensures At(db, front, i) == At(db, ops, i) {}
    assert At(db, ops, n) == Run(db, front);
  }

  lemma {:induction false} ConcurrencyStays(db: Db, ops: seq<Op>, q: QueueId)
    requires LeasesSound(db) && q in db.queues
    ensures q in Run(db, ops).queues && Run(db, ops).queues[q].concurrency == db.queues[q].concurrency
  {
    if ops != [] {
      hide Step;
      var front := ops[..|ops| - 1];
      ConcurrencyStays(db, front, q);
      RunSound(db, front);
      ConcurrencyKept(Run(db, front), ops[|ops| - 1], q);
    }
  }

  /** A run that starts within the cap stays within it, time steps included, exactly when none of
      its batch renewals revives too many leases. */
  lemma {:induction false} RunCapped(db: Db, ops: seq<Op>, q: QueueId, c: nat)
    requires LeasesSound(db) && q in db.queues && db.queues[q].concurrency == Some(c) && |LiveLeases(db, q)| <= c
    ensures CappedThroughout(db, ops, q, c) <==> RenewsWithinRun(db, ops, q, c)
  {
    hide Step, RenewsWithin, LiveLeases;
    if ops == [] {
      assert At(db, ops, 0) == db;
    } else {
      hide RenewsWithinRun, CappedThroughout;
      var front, op := ops[..|ops| - 1], ops[|ops| - 1];
      RunCapped(db, front, q, c);
      CappedFront(db, ops, q, c);
      RenewsFront(db, ops, q, c);
      RunSound(db, front);
      ConcurrencyStays(db, front, q);
      if CappedThroughout(db, front, q, c) {
        CappedLast(db, front, q, c);
        StepCapped(Run(db, front), op, q, c);
      }
    }
  }

  lemma CappedLast(db: Db, ops: seq<Op>, q: QueueId, c: nat)
    requires CappedThroughout(db, ops, q, c)
    ensures |LiveLeases(Run(db, ops), q)| <= c
  {
    hide Run, LiveLeases;
    assert ops[..|ops|] == ops;
    assert At(db, ops, |ops|) == Run(db, ops);
  }

  /** The one way over the cap: a batch renewal of the queue that revives a lease after its expiry. */
  lemma OverCapOnlyByLateRenewal(db: Db, op: Op, q: QueueId, c: nat)
    requires LeasesSound(db) && q in db.queues && db.queues[q].concurrency == Some(c) && |LiveLeases(db, q)| <= c
    requires |LiveLeases(Step(db, op), q)| > c
    ensures op.OpExtendMany? && op.queue == q && exists k :: k in Renewed(db, q, op.leases) && k !in LiveLeases(db, q)
  {
    hide Step, LiveLeases, Renewed;
    if op.OpExtendMany? {
      assert Renewed(db, q, op.leases) <= LiveLeases(db, q) ==>
        LiveLeases(db, q) + Renewed(db, q, op.leases) == LiveLeases(db, q);
    }
    StepCapped(db, op, q, c);
  }

  // ---------------------------------------------------------------- the rate limiter

  /** The claims of one queue in order of time; `start` is the first of the current window and
      `prev` the first of the window before it. */
  datatype Meter = Meter(times: seq<Millis>, start: nat, prev: nat)

  /** The step claims a job of queue `q`. */
  ghost predicate ClaimsFrom(db: Db, op: Op, q: QueueId) {
    op.OpClaim? && op.claim.queue == q && Takes(db, op.claim)
  }

  ghost function Metered(db: Db, op: Op, q: QueueId, m: Meter): Meter {
    if !ClaimsFrom(db, op, q) then m
    else if LiveWindow(QueueOf(db, q).window, db.now).Some? then m.(times := m.times + [db.now])
    else Meter(m.times + [db.now], |m.times|, m.start)
  }

  /** The times at which jobs of queue `q` are claimed in a run. */
  ghost function MeterOf(db: Db, ops: seq<Op>, q: QueueId): Meter {
    if ops == [] then Meter([], 0, 0)
    else Metered(Run(db, ops[..|ops| - 1]), ops[|ops| - 1], q, MeterOf(db, ops[..|ops| - 1], q))
  }

  predicate InTimeOrder(ts: seq<Millis>) {
    forall i, j | 0 <= i < j < |ts| :: ts[i] <= ts[j]
  }

  /** Any `2 * max` claims in a row span at least one duration. */
  predicate Spaced(ts: seq<Millis>, max: nat, duration: nat) {
    max >= 1 && forall i | 0 <= i < |ts| - (2 * max - 1) :: ts[i + (2 * max - 1)] >= ts[i] + duration
  }

  /** What ties the limiter window to the claims made so far. */
  predicate Ticking(w: Option<Window>, now: Millis, m: Meter, max: nat, duration: nat) {
    && InTimeOrder(m.times) && Spaced(m.times, max, duration)
    && (forall i | 0 <= i < |m.times| :: m.times[i] <= now)
    && (w.Some? ==> m.start < |m.times| && w.value == Window(|m.times| - m.start, Some(m.times[m.start] + duration)))
    && (m.times == [] ==> m.start == 0)
    && (m.times != [] ==>
          && m.start < |m.times| <= m.start + max
          && (w.None? ==> now >= m.times[m.start] + duration)
          && (m.start > 0 ==> m.prev < m.start <= m.prev + max && m.times[m.start] >= m.times[m.prev] + duration))
  }

  lemma TickingTrimmed(w: Option<Window>, now: Millis, m: Meter, max: nat, duration: nat)
    requires Ticking(w, now, m, max, duration)
    ensures Ticking(LiveWindow(w, now), now, m, max, duration)
  {}

  lemma TickingLater(w: Option<Window>, now: Millis, later: Millis, m: Meter, max: nat, duration: nat)
    requires Ticking(w, now, m, max, duration) && now <= later
    ensures Ticking(w, later, m, max, duration)
  {}

  lemma SpacedMore(ts: seq<Millis>, t: Millis, max: nat, duration: nat)
    requires Spaced(ts, max, duration)
    requires |ts| >= 2 * max - 1 ==> max > 0 && t >= ts[|ts| - (2 * max - 1)] + duration
    ensures Spaced(ts + [t], max, duration)
  {}

  lemma SameWindowSpaced(m: Meter, now: Millis, max: nat, duration: nat, w: Window)
    requires max >= 1 && Ticking(Some(w), now, m, max, duration) && w.tokens < max
    ensures Spaced(m.times + [now], max, duration)
  {
    var n := |m.times|;
    if n >= 2 * max - 1 {
      assert m.start > 0;
      assert n - (2 * max - 1) <= m.prev;
    }
    SpacedMore(m.times, now, max, duration);
  }

  lemma NewWindowSpaced(m: Meter, now: Millis, max: nat, duration: nat)
    requires max >= 1 && Ticking(None, now, m, max, duration)
    ensures Spaced(m.times + [now], max, duration)
  {
    var n := |m.times|;
    if n >= 2 * max - 1 {
      assert n - (2 * max - 1) <= m.start;
    }
    SpacedMore(m.times, now, max, duration);
  }

  lemma TokenTaken(w: Option<Window>, now: Millis, m: Meter, max: nat, duration: nat)
    requires max >= 1 && Ticking(w, now, m, max, duration) && !Throttled(w, Some(Limiter(max, duration)), now)
    requires w == LiveWindow(w, now)
    ensures var m' := if w.Some? then m.(times := m.times + [now]) else Meter(m.times + [now], |m.times|, m.start);
      Ticking(TakeToken(w, Some(Limiter(max, duration)), now), now, m', max, duration)
  {
    if w.Some? {
      SameWindowSpaced(m, now, max, duration, w.value);
    } else {
      NewWindowSpaced(m, now, max, duration);
    }
  }

  /** Every claim on the queue is made under the one limiter. */
  ghost predicate Limited(db: Db, op: Op, q: QueueId, max: nat, duration: nat) {
    op.OpClaim? && op.claim.queue == q ==> EffectiveLimiter(db, op.claim) == Some(Limiter(max, duration))
  }

  lemma StepTicking(db: Db, op: Op, q: QueueId, m: Meter, max: nat, duration: nat)
    requires LeasesSound(db) && q in db.queues && max >= 1 && Limited(db, op, q, max, duration)
    requires Ticking(db.queues[q].window, db.now, m, max, duration)
    ensures var db' := Step(db, op);
      q in db'.queues && Ticking(db'.queues[q].window, db'.now, Metered(db, op, q, m), max, duration)
  {
    hide Step, Takes, Ticking, Throttled, EffectiveLimiter;
    var w := db.queues[q].window;
    StepNow(db, op);
    if op.OpClaim? {
      ClaimStep(db, op);
      ClaimLimits(db, op.claim);
      if op.claim.queue == q {
        TickingTrimmed(w, db.now, m, max, duration);
        if Takes(db, op.claim) { TokenTaken(LiveWindow(w, db.now), db.now, m, max, duration); }
      }
    } else if op.OpTick? {
      TickStep(db, op);
      TickingLater(w, db.now, Step(db, op).now, m, max, duration);
    } else {
      StepLimits(db, op);
    }
  }

  lemma ClaimStep(db: Db, op: Op)
    requires op.OpClaim?
    ensures Step(db, op) == Claim(db, op.claim)
  {
    hide Claim;
  }

  lemma TickStep(db: Db, op: Op)
    requires op.OpTick?
    ensures Step(db, op).queues == db.queues
  {}

  ghost predicate LimitedRun(db: Db, ops: seq<Op>, q: QueueId, max: nat, duration: nat) {
    forall i | 0 <= i < |ops| :: Limited(At(db, ops, i), ops[i], q, max, duration)
  }

  lemma {:induction false} RunTicking(db: Db, ops: seq<Op>, q: QueueId, max: nat, duration: nat)
    requires LeasesSound(db) && q in db.queues && db.queues[q].window.None? && max >= 1
    requires LimitedRun(db, ops, q, max, duration)
    ensures var end := Run(db, ops);
      q in end.queues && Ticking(end.queues[q].window, end.now, MeterOf(db, ops, q), max, duration)
  {
    if ops != [] {
      hide Step, Limited, Ticking, Metered;
      var front, n := ops[..|ops| - 1], |ops| - 1;
      forall i | 0 <= i < n ensures Limited(At(db, front, i), front[i], q, max, duration) {
        assert front[..i] == ops[..i];
        assert Limited(At(db, ops, i), ops[i], q, max, duration);
      }
      RunTicking(db, front, q, max, duration);
      RunSound(db, front);
      assert Limited(At(db, ops, n), ops[n], q, max, duration);
      StepTicking(Run(db, front), ops[n], q, MeterOf(db, front, q), max, duration);
    }
  }

  /** A window never counts more claims than the limiter allows. */
  lemma WindowWithinLimit(db: Db, ops: seq<Op>, q: QueueId, max: nat, duration: nat)
    requires LeasesSound(db) && q in db.queues && db.queues[q].window.None? && max >= 1
    requires LimitedRun(db, ops, q, max, duration)
    ensures var w := QueueOf(Run(db, ops), q).window; w.Some? ==> 1 <= w.value.tokens <= max
  {
    hide Step, LimitedRun;
    RunTicking(db, ops, q, max, duration);
  }

  /** The claims made in a half-open interval of one duration. */
  function ClaimsWithin(ts: seq<Millis>, from: Millis, duration: nat): set<nat> {
    set i | 0 <= i < |ts| && from <= ts[i] < from + duration
  }

  lemma {:induction false} BoundedIndices(s: set<nat>, lo: nat, n: nat)
    requires forall i | i in s :: lo <= i < lo + n
    ensures |s| <= n
    decreases n
  {
    if n == 0 {
      assert (forall i: nat :: i !in s) ==> s == {};
    } else {
      BoundedIndices(s - {lo + n - 1}, lo, n - 1);
    }
  }

  lemma {:induction false} SmallestIndex(s: set<nat>) returns (m: nat)
    requires s != {}
    ensures m in s && forall i | i in s :: m <= i
    decreases |s|
  {
    assert (forall i: nat :: i !in s) ==> s == {};
    var x: nat :| x in s;
    m := x;
    var rest := s - {x};
    if rest != {} {
      var y := SmallestIndex(rest);
      m := if y < x then y else x;
    }
    forall i | i in s ensures m <= i { assert i == x || i in rest; }
  }

  lemma SpacedApart(ts: seq<Millis>, max: nat, duration: nat, i: nat, j: nat)
    requires InTimeOrder(ts) && Spaced(ts, max, duration) && i + (2 * max - 1) <= j < |ts|
    ensures ts[j] >= ts[i] + duration
  {
    assert ts[i + (2 * max - 1)] >= ts[i] + duration;
  }

  lemma SpacedIsSparse(ts: seq<Millis>, max: nat, duration: nat, from: Millis)
    requires InTimeOrder(ts) && Spaced(ts, max, duration) && max >= 1
    ensures |ClaimsWithin(ts, from, duration)| <= 2 * max - 1
  {
    var s := ClaimsWithin(ts, from, duration);
    if s != {} {
      var lo := SmallestIndex(s);
      forall i | i in s ensures lo <= i < lo + (2 * max - 1) {
        if i >= lo + (2 * max - 1) {
          SpacedApart(ts, max, duration, lo, i);
        }
      }
      BoundedIndices(s, lo, 2 * max - 1);
    }
  }

  /** In any run under one limiter, any half-open interval as long as its duration contains fewer
      than `2 * max` claims. */
  lemma RateIsLimited(db: Db, ops: seq<Op>, q: QueueId, max: nat, duration: nat, from: Millis)
    requires LeasesSound(db) && q in db.queues && db.queues[q].window.None? && max >= 1
    requires LimitedRun(db, ops, q, max, duration)
    ensures |ClaimsWithin(MeterOf(db, ops, q).times, from, duration)| <= 2 * max - 1
  {
    hide Step, LimitedRun, Spaced, InTimeOrder, MeterOf;
    RunTicking(db, ops, q, max, duration);
    SpacedIsSparse(MeterOf(db, ops, q).times, max, duration, from);
  }
}
