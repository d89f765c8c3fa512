/** Attempt accounting: what the three counters of a job add up to, and how often a job can
    be claimed at all. */
module Attempts {
  import opened Rows
  import opened Ordering
  import opened Claiming
  import opened Ending
  import opened Managing
  import opened Machine
  import opened Frames
  import opened Lives

  // ---------------------------------------------------------------- the balance

  /** The step gives job `k` back without counting an attempt. */
  ghost predicate Volunteers(db: Db, op: Op, k: Key) {
    EffectOf(db, op).Ends? && EffectOf(db, op).key == k && !EffectOf(db, op).counted
  }

  /** How often the present row of `k` was given back without counting an attempt. */
  ghost function Volunteered(db: Db, ops: seq<Op>, k: Key): nat {
    if ops == [] then 0
    else
      var prev, last := Run(db, ops[..|ops| - 1]), ops[|ops| - 1];
      var next := Step(prev, last);
      if k in prev.jobs && k in next.jobs && next.jobs[k].pk == prev.jobs[k].pk
      then Volunteered(db, ops[..|ops| - 1], k) + (if Volunteers(prev, last, k) then 1 else 0)
      else 0
  }

  /** The step claims job `k`. */
  ghost predicate ClaimsJob(db: Db, op: Op, k: Key) {
    op.OpClaim? && op.claim.pick == k && Takes(db, op.claim)
  }

  /** How many steps of the run claim the present row of `k`. */
  ghost function ClaimsIn(db: Db, ops: seq<Op>, k: Key): nat {
    if ops == [] then 0
    else
      var prev, last := Run(db, ops[..|ops| - 1]), ops[|ops| - 1];
      var next := Step(prev, last);
      if k in prev.jobs && k in next.jobs && next.jobs[k].pk == prev.jobs[k].pk
      then ClaimsIn(db, ops[..|ops| - 1], k) + (if ClaimsJob(prev, last, k) then 1 else 0)
      else 0
  }

  predicate Balanced(l: Life, given: nat) {
    l.started == l.made + l.stalls + (if l.phase == Running then 1 else 0) + given
  }

  /** Reprocessing that resets a counter starts a new account. */
  predicate KeepsCounters(op: Op) {
    op.OpReprocess? ==> !op.resetMade && !op.resetStarted
  }

  lemma StepBalanced(db: Db, op: Op, k: Key, given: nat)
    requires LeasesSound(db) && PksBounded(db) && KeepsCounters(op)
    requires k in Step(db, op).jobs
    requires k in db.jobs ==> Balanced(LifeOf(db.jobs[k]), given)
    ensures var next := Step(db, op);
      Balanced(LifeOf(next.jobs[k]),
        if k in db.jobs && next.jobs[k].pk == db.jobs[k].pk then given + (if Volunteers(db, op, k) then 1 else 0)
        else 0)
  {
    hide Step, Takes;
    StepLife(db, op);
    EffectWellAimed(db, op);
    EffectBalanced(db, EffectOf(db, op), Step(db, op), k, given);
    assert EffectOf(db, op).Revives? ==> !EffectOf(db, op).resetMade && !EffectOf(db, op).resetStarted;
  }

  lemma EffectBalanced(db: Db, e: Effect, next: Db, k: Key, given: nat)
    requires PksBounded(db) && AllLiveOn(db, e, next) && WellAimed(db, e) && k in next.jobs
    requires e.Revives? ==> !e.resetMade && !e.resetStarted
    requires k in db.jobs ==> Balanced(LifeOf(db.jobs[k]), given)
    ensures Balanced(LifeOf(next.jobs[k]),
      if k in db.jobs && next.jobs[k].pk == db.jobs[k].pk then
        given + (if e.Ends? && e.key == k && !e.counted then 1 else 0)
      else 0)
  {
    assert LivesOn(db, e, next, k);
  }

  /** From an empty database, through any run: claims started equal attempts made plus stalls
      plus the claim in progress plus the claims given back. */
  lemma {:induction false} AccountsBalance(db: Db, ops: seq<Op>, k: Key)
    requires Initial(db) && k in Run(db, ops).jobs
    requires forall i | 0 <= i < |ops| :: KeepsCounters(ops[i])
    ensures Balanced(LifeOf(Run(db, ops).jobs[k]), Volunteered(db, ops, k))
  {
    hide Step;
    var front := ops[..|ops| - 1];
    var prev := Run(db, front);
    if k in prev.jobs { AccountsBalance(db, front, k); }
    RunSound(db, front);
    RunPks(db, front);
    StepBalanced(prev, ops[|ops| - 1], k, Volunteered(db, front, k));
  }

  lemma EffectCounts(db: Db, e: Effect, next: Db, k: Key)
    requires PksBounded(db) && AllLiveOn(db, e, next) && k in next.jobs
    requires e.Revives? ==> !e.resetStarted
    ensures next.jobs[k].attemptsStarted ==
      if k in db.jobs && next.jobs[k].pk == db.jobs[k].pk then
        db.jobs[k].attemptsStarted + (if e.Claims? && e.key == k then 1 else 0)
      else 0
  {
    assert LivesOn(db, e, next, k);
  }

  /** The counter of started attempts is the number of steps of the run that claim the job. */
  lemma {:induction false} StartedCountsClaims(db: Db, ops: seq<Op>, k: Key)
    requires Initial(db) && k in Run(db, ops).jobs
    requires forall i | 0 <= i < |ops| :: KeepsCounters(ops[i])
    ensures Run(db, ops).jobs[k].attemptsStarted == ClaimsIn(db, ops, k)
  {
    hide Step, Takes;
    var front, op := ops[..|ops| - 1], ops[|ops| - 1];
    var prev := Run(db, front);
    if k in prev.jobs { StartedCountsClaims(db, front, k); }
    RunSound(db, front);
    RunPks(db, front);
    StepLife(prev, op);
    ResetsNothing(prev, op);
    EffectCounts(prev, EffectOf(prev, op), Step(prev, op), k);
    ClaimEffectIs(prev, op, k);
  }

  lemma ResetsNothing(db: Db, op: Op)
    requires KeepsCounters(op)
    ensures EffectOf(db, op).Revives? ==> !EffectOf(db, op).resetStarted
  {
    hide Takes;
  }

  lemma ClaimEffectIs(db: Db, op: Op, k: Key)
    ensures ClaimsJob(db, op, k) <==> EffectOf(db, op).Claims? && EffectOf(db, op).key == k
  {
    hide Takes;
  }

  // ---------------------------------------------------------------- the bound

  /** Attempts the options grant; an absent or non-positive number still gives one. */
  function Limit(p: Payload): nat {
    if p.opts.attempts > 1 then p.opts.attempts else 1
  }

  /** `Job.moveToFailed` retries a failed attempt only while this holds. */
  predicate ShouldRetry(j: Job, recoverable: bool) {
    recoverable && j.attemptsMade + 1 < j.payload.opts.attempts
  }

  /** What `Job.moveToFailed` sends for a failed attempt; `backoff` is the computed delay, none
      when the strategy stops the retries. */
  ghost function FailOp(db: Db, k: Key, t: Token, recoverable: bool, backoff: Option<nat>,
    keep: Option<nat>, age: Option<int>): Op
    requires k in db.jobs
  {
    if ShouldRetry(db.jobs[k], recoverable) && backoff.Some? then
      if backoff.value > 0 then OpDelay(k, t, db.now + backoff.value, backoff.value, true)
      else OpRetry(k, t, db.jobs[k].payload.opts.lifo)
    else OpFinish(FinishArgs(k, t, false, keep, age))
  }

  /** The worker policy: failed attempts are retried as `Job.moveToFailed` decides, sweeps use
      one stall limit, and nobody gives a claim back uncounted or revives a finished job. */
  ghost predicate Disciplined(db: Db, op: Op, maxStalled: nat) {
    match op
    case OpRetry(k, _, _) => k in db.jobs ==> ShouldRetry(db.jobs[k], true)
    case OpDelay(k, _, _, _, failed) => failed && (k in db.jobs ==> ShouldRetry(db.jobs[k], true))
    case OpSweep(_, m) => m == maxStalled
    case OpToChildren(_, _, _) => false
    case OpRelease(_, _) => false
    case OpReprocess(_, _, _, _) => false
    case OpMoveBatch(_, from, _, _) => from == Delayed
    case _ => true
  }

  lemma FailOpIsDisciplined(db: Db, k: Key, t: Token, r: bool, b: Option<nat>,
    keep: Option<nat>, age: Option<int>, s: nat)
    requires k in db.jobs
    ensures Disciplined(db, FailOp(db, k, t, r, b, keep, age), s)
    ensures FailOp(db, k, t, r, b, keep, age).OpFinish? <==> !(ShouldRetry(db.jobs[k], r) && b.Some?)
  {}

  /** What a failed attempt sends: another attempt as long as the error is recoverable, this was not the
      last one and the strategy gives a delay, at once or after that delay; otherwise the failure. */
  lemma FailedAttemptSends(db: Db, k: Key, t: Token, recoverable: bool, backoff: Option<nat>,
    keep: Option<nat>, age: Option<int>)
    requires k in db.jobs
    ensures var op, j := FailOp(db, k, t, recoverable, backoff, keep, age), db.jobs[k];
      var again := recoverable && backoff.Some? && j.payload.opts.attempts - j.attemptsMade >= 2;
      && (again && backoff == Some(0) <==> op == OpRetry(k, t, j.payload.opts.lifo))
      && (again && backoff != Some(0) <==> op.OpDelay?)
      && (op.OpDelay? ==> op == OpDelay(k, t, db.now + backoff.value, backoff.value, true))
      && (!again <==> op == OpFinish(FinishArgs(k, t, false, keep, age)))
  {}

  /** The counters of a job in each phase. */
  predicate Bounded(l: Life, limit: nat, maxStalled: nat) {
    && Balanced(l, 0)
    && match l.phase
       case Idle => l.made < limit && l.stalls <= maxStalled
       case Running => l.made < limit && l.stalls <= maxStalled
       case Succeeded => l.made <= limit && l.stalls <= maxStalled
       case Dead => (l.made <= limit && l.stalls <= maxStalled) || (l.made < limit && l.stalls <= maxStalled + 1)
  }

  ghost predicate AllBounded(db: Db, maxStalled: nat) {
    forall k | k in db.jobs :: Bounded(LifeOf(db.jobs[k]), Limit(db.jobs[k].payload), maxStalled)
  }

  /** What discipline means for the effect of a step. */
  ghost predicate MildEffect(db: Db, e: Effect, maxStalled: nat) {
    match e
    case Ends(k, phase, counted) => counted && (phase == Idle && k in db.jobs ==> ShouldRetry(db.jobs[k], true))
    case Sweeps(dead, back) =>
      && (forall k | k in dead && k in db.jobs :: db.jobs[k].stalled + 1 > maxStalled)
      && (forall k | k in back && k in db.jobs :: db.jobs[k].stalled + 1 <= maxStalled)
    case Revives(_, _, _) => false
    case MovesBack(keys) => forall k | k in keys && k in db.jobs :: db.jobs[k].state == Delayed
    case _ => true
  }

  lemma DisciplinedIsMild(db: Db, op: Op, maxStalled: nat)
    requires Disciplined(db, op, maxStalled)
    ensures MildEffect(db, EffectOf(db, op), maxStalled)
  {
    hide Takes, Sorted, Movable, HasEdge, HasPendingChild;
    if op.OpMoveBatch? {
      MovedListed(db, op.queue, Delayed, op.count, op.upTo);
      DelayedMoved(db, op.queue, op.count, op.upTo);
    }
  }

  lemma DelayedMoved(db: Db, q: QueueId, n: nat, t: Millis)
    ensures forall k | k in Moved(db, q, Delayed, n, t) :: k in db.jobs && db.jobs[k].state == Delayed
  {
    MovedListed(db, q, Delayed, n, t);
  }

  /** The bounds survive an effect that starts where it should and retries only while allowed. */
  lemma LifeBounded(l: Life, k: Key, e: Effect, limit: nat, maxStalled: nat)
    requires Bounded(l, limit, maxStalled) && limit >= 1 && !e.Revives?
    requires e.Claims? && e.key == k ==> l.phase == Idle
    requires e.Ends? && e.key == k ==>
      l.phase == Running && e.phase != Running && e.counted && (e.phase == Idle ==> l.made + 1 < limit)
    requires e.Sweeps? && k in e.dead ==> l.phase == Running
    requires e.Sweeps? && k in e.back ==> l.phase == Running && l.stalls + 1 <= maxStalled
    requires e.MovesBack? && k in e.keys ==> l.phase == Idle
    ensures Bounded(Applied(l, k, e), limit, maxStalled)
  {}

  lemma RowBounded(db: Db, e: Effect, next: Db, maxStalled: nat, k: Key)
    requires AllBounded(db, maxStalled) && WellAimed(db, e) && MildEffect(db, e, maxStalled)
    requires CarriedBy(db, e, next, k)
    ensures Bounded(LifeOf(next.jobs[k]), Limit(next.jobs[k].payload), maxStalled)
  {
    hide Bounded, Applied;
    assert Bounded(LifeOf(db.jobs[k]), Limit(db.jobs[k].payload), maxStalled);
    LifeBounded(LifeOf(db.jobs[k]), k, e, Limit(db.jobs[k].payload), maxStalled);
  }

  lemma NewbornBounded(j: Job, maxStalled: nat)
    requires Newborn(j)
    ensures Bounded(LifeOf(j), Limit(j.payload), maxStalled)
  {}

  lemma EffectBounded(db: Db, e: Effect, next: Db, maxStalled: nat)
    requires AllBounded(db, maxStalled) && AllLiveOn(db, e, next) && WellAimed(db, e) && MildEffect(db, e, maxStalled)
    ensures AllBounded(next, maxStalled)
  {
    hide Bounded, WellAimed, MildEffect, CarriedBy, Newborn;
    forall k | k in next.jobs ensures Bounded(LifeOf(next.jobs[k]), Limit(next.jobs[k].payload), maxStalled) {
      assert LivesOn(db, e, next, k);
      if CarriedBy(db, e, next, k) {
        RowBounded(db, e, next, maxStalled, k);
      } else {
        NewbornBounded(next.jobs[k], maxStalled);
      }
    }
  }

  ghost predicate DisciplinedRun(db: Db, ops: seq<Op>, maxStalled: nat) {
    forall i | 0 <= i < |ops| :: Disciplined(At(db, ops, i), ops[i], maxStalled)
  }

  lemma DisciplinedFront(db: Db, ops: seq<Op>, maxStalled: nat)
    requires ops != [] && DisciplinedRun(db, ops, maxStalled)
    ensures DisciplinedRun(db, ops[..|ops| - 1], maxStalled)
    ensures Disciplined(Run(db, ops[..|ops| - 1]), ops[|ops| - 1], maxStalled)
  {
    hide Disciplined, Run;
    var front := ops[..|ops| - 1];
    forall i | 0 <= i < |front| ensures Disciplined(At(db, front, i), front[i], maxStalled) {
      assert front[..i] == ops[..i];
      assert Disciplined(At(db, ops, i), ops[i], maxStalled);
    }
    assert Disciplined(At(db, ops, |ops| - 1), ops[|ops| - 1], maxStalled);
  }

  lemma {:induction false} RunBounded(db: Db, ops: seq<Op>, maxStalled: nat)
    requires LeasesSound(db) && AllBounded(db, maxStalled) && DisciplinedRun(db, ops, maxStalled)
    ensures AllBounded(Run(db, ops), maxStalled)
  {
    if ops != [] {
      hide Step, EffectOf, Disciplined;
      var front, op := ops[..|ops| - 1], ops[|ops| - 1];
      var prev := Run(db, front);
      DisciplinedFront(db, ops, maxStalled);
      RunBounded(db, front, maxStalled);
      RunSound(db, front);
      StepLife(prev, op);
      EffectWellAimed(prev, op);
      DisciplinedIsMild(prev, op, maxStalled);
      EffectBounded(prev, EffectOf(prev, op), Step(prev, op), maxStalled);
    }
  }

  /** Under the worker policy no job is ever claimed more than max(1, attempts) plus the stall
      limit times, whatever the interleaving. */
  lemma ClaimsAreBounded(db: Db, ops: seq<Op>, maxStalled: nat, k: Key)
    requires Initial(db) && DisciplinedRun(db, ops, maxStalled) && k in Run(db, ops).jobs
    ensures var j := Run(db, ops).jobs[k];
      ClaimsIn(db, ops, k) == j.attemptsStarted <= Limit(j.payload) + maxStalled
  {
    hide Step, DisciplinedRun;
    RunBounded(db, ops, maxStalled);
    assert Bounded(LifeOf(Run(db, ops).jobs[k]), Limit(Run(db, ops).jobs[k].payload), maxStalled);
    forall i | 0 <= i < |ops| ensures KeepsCounters(ops[i]) { DisciplinedKeeps(db, ops, maxStalled, i); }
    StartedCountsClaims(db, ops, k);
  }

  lemma DisciplinedKeeps(db: Db, ops: seq<Op>, maxStalled: nat, i: nat)
    requires DisciplinedRun(db, ops, maxStalled) && i < |ops|
    ensures KeepsCounters(ops[i])
  {
    assert Disciplined(At(db, ops, i), ops[i], maxStalled);
  }

  lemma LivesOnAt(db: Db, e: Effect, db': Db, k: Key)
    requires AllLiveOn(db, e, db') && k in db'.jobs && k in db.jobs && db.jobs[k].state == Active
    ensures CarriedBy(db, e, db', k) || (e.Ends? && e.key == k && LivesOn(db, e, db', k))
  {}

  /** While a worker holds a job its attempt counter does not move, so the number the worker
      was given at the claim is the number `ShouldRetry` sees. */
  lemma SnapshotStaysTrue(db: Db, op: Op, k: Key)
    requires LeasesSound(db) && k in db.jobs && db.jobs[k].state == Active
    requires k in Step(db, op).jobs && Step(db, op).jobs[k].lockToken == db.jobs[k].lockToken
    ensures Step(db, op).jobs[k].attemptsMade == db.jobs[k].attemptsMade
  {
    hide Step, EffectOf;
    StepLife(db, op);
    EffectWellAimed(db, op);
    LivesOnAt(db, EffectOf(db, op), Step(db, op), k);
    assert Sound(LifeOf(db.jobs[k]));
  }
}
