/** Leases as fences: a claim is ended only under its own token or by the sweep after its
    expiry, it is ended once, and calls under a superseded token change nothing. */
module Fencing {
  import opened Rows
  import opened Tables
  import opened Linking
  import opened Ending
  import opened Claiming
  import opened Machine
  import opened Lives

  ghost predicate Holds(db: Db, k: Key, t: Token) {
    k in db.jobs && db.jobs[k].lockToken == Some(t)
  }

  /** A call of a worker on job `k` under token `t`. */
  predicate CallUnder(op: Op, k: Key, t: Token) {
    match op
    case OpFinish(a) => a.key == k && a.token == t
    case OpRetry(x, u, _) => x == k && u == t
    case OpDelay(x, u, _, _, _) => x == k && u == t
    case OpToChildren(x, u, _) => x == k && u == t
    case OpRelease(x, u) => x == k && u == t
    case OpExtend(x, u, _) => x == k && u == t
    case _ => false
  }

  predicate ClaimOf(op: Op, k: Key, t: Token) {
    op.OpClaim? && op.claim.pick == k && op.claim.token == t
  }

  /** A call under a token the job does not hold leaves the whole state as it was. */
  lemma StaleCallIsInert(db: Db, op: Op, k: Key, t: Token)
    requires CallUnder(op, k, t) && !Holds(db, k, t)
    ensures Step(db, op) == db
  {
    match op
    case OpFinish(a) =>
    case OpRetry(_, _, _) =>
    case OpDelay(_, _, _, _, _) =>
    case OpToChildren(_, _, _) =>
    case OpRelease(_, _) =>
    case OpExtend(_, _, _) =>
  }

  /** Batch renewal skips every lease that is not held. */
  lemma StaleRenewalIsInert(db: Db, q: QueueId, leases: seq<Lease>, ms: int, k: Key)
    requires k in db.jobs
    requires forall l | l in leases && Key(q, l.id) == k :: !Holds(db, k, l.token)
    ensures k in ExtendMany(db, q, leases, ms).jobs && ExtendMany(db, q, leases, ms).jobs[k] == db.jobs[k]
  {
    if Renews(db, q, leases, k) {
      assert Lease(k.id, db.jobs[k].lockToken.value) in leases;
    }
  }

  /** A finish goes through exactly under the token the active job holds, before its expiry, and, if
      it reports success, with no unsettled edge left. */
  lemma FinishesExactly(db: Db, a: FinishArgs)
    requires LeasesSound(db)
    ensures Finishes(db, a) <==>
      HeldBy(db, a.key, a.token) && Unexpired(db.jobs[a.key], db.now) && (a.ok ==> !HasBlockingEdge(db, a.key))
  {
    if a.key in db.jobs { assert Sound(LifeOf(db.jobs[a.key])); }
    BlockingSplits(db, a.key);
  }

  lemma BlockingSplits(db: Db, k: Key)
    ensures HasBlockingEdge(db, k) <==> HasEdge(db, k, Pending) || HasEdge(db, k, Broken)
  {}

  /** A finish that has taken effect is acknowledged again without any change. */
  lemma RepeatedFinishIsInert(db: Db, a: FinishArgs)
    requires LeasesSound(db) && Finishes(db, a)
    ensures !Holds(Finish(db, a).0, a.key, a.token)
    ensures Finish(Finish(db, a).0, a).0 == Finish(db, a).0
  {
    hide AllLiveOn, DoFinish;
    StepLife(db, OpFinish(a));
    LeaseDropped(db, EffectOf(db, OpFinish(a)), a.key, Finish(db, a).0);
    StaleCallIsInert(Finish(db, a).0, OpFinish(a), a.key, a.token);
  }

  lemma LeaseDropped(db: Db, e: Effect, k: Key, db': Db)
    requires AllLiveOn(db, e, db') && e.Ends? && e.key == k
    ensures k in db'.jobs ==> db'.jobs[k].lockToken.None?
  {
    if k in db'.jobs { assert LivesOn(db, e, db', k); }
  }

  /** A step that takes the lease from a job is a call under its token, or a sweep of its
      queue after the lease has expired. */
  lemma ClaimEndsOnlyBy(db: Db, op: Op, k: Key, t: Token)
    requires LeasesSound(db) && Holds(db, k, t) && !Holds(Step(db, op), k, t)
    ensures CallUnder(op, k, t)
      || (op.OpSweep? && op.queue == k.queue && db.jobs[k].lockExpires.Some? && db.jobs[k].lockExpires.value < db.now)
  {
    hide Step, Takes;
    var db', e := Step(db, op), EffectOf(db, op);
    StepLife(db, op);
    EffectWellAimed(db, op);
    assert Sound(LifeOf(db.jobs[k]));
    LeaseLost(db, e, k, db');
    EndsAreCalls(db, op, k, t);
  }

  lemma LeaseLost(db: Db, e: Effect, k: Key, db': Db)
    requires LeasesSound(db) && WellAimed(db, e) && AllLiveOn(db, e, db')
    requires k in db.jobs && db.jobs[k].state == Active
    requires k in db'.jobs ==> db'.jobs[k].lockToken != db.jobs[k].lockToken
    ensures (e.Ends? && e.key == k) || (e.Sweeps? && k in e.dead + e.back)
  {
    assert CarriedBy(db, e, db', k) || (e.Ends? && e.key == k);
  }

  lemma EndsAreCalls(db: Db, op: Op, k: Key, t: Token)
    requires Holds(db, k, t)
    ensures EffectOf(db, op).Ends? && EffectOf(db, op).key == k ==> CallUnder(op, k, t)
    ensures EffectOf(db, op).Sweeps? && k in EffectOf(db, op).dead + EffectOf(db, op).back ==>
      op.OpSweep? && op.queue == k.queue && db.jobs[k].lockExpires.Some? && db.jobs[k].lockExpires.value < db.now
  {
    hide Takes;
  }

  lemma HeldOnlyByClaim(db: Db, op: Op, k: Key, t: Token)
    requires LeasesSound(db) && !Holds(db, k, t) && Holds(Step(db, op), k, t)
    ensures ClaimOf(op, k, t)
  {
    hide Step, EffectOf, AllLiveOn;
    StepLife(db, op);
    HeldByEffect(db, EffectOf(db, op), Step(db, op), k, t);
    ClaimEffect(db, op);
  }

  lemma HeldByEffect(db: Db, e: Effect, db': Db, k: Key, t: Token)
    requires AllLiveOn(db, e, db') && !Holds(db, k, t) && Holds(db', k, t)
    ensures e.Claims? && e.key == k && e.token == t
  {
    assert LivesOn(db, e, db', k);
  }

  lemma ClaimEffect(db: Db, op: Op)
    ensures EffectOf(db, op).Claims? ==>
      op.OpClaim? && EffectOf(db, op).key == op.claim.pick && EffectOf(db, op).token == op.claim.token
  {
    hide Takes;
  }

  /** Once lost, a lease never comes back unless the same token claims the job again. */
  lemma {:induction false} NeverHeldAgain(db: Db, ops: seq<Op>, k: Key, t: Token)
    requires LeasesSound(db) && !Holds(db, k, t)
    requires forall i | 0 <= i < |ops| :: !ClaimOf(ops[i], k, t)
    ensures !Holds(Run(db, ops), k, t)
  {
    if ops != [] {
      hide Step, CallUnder;
      var front := ops[..|ops| - 1];
      NeverHeldAgain(db, front, k, t);
      RunSound(db, front);
      if Holds(Run(db, ops), k, t) {
        HeldOnlyByClaim(Run(db, front), ops[|ops| - 1], k, t);
      }
    }
  }

  /** In any run, whatever a superseded token is used for, nothing happens. */
  lemma SupersededTokenIsInert(db: Db, ops: seq<Op>, op: Op, k: Key, t: Token)
    requires LeasesSound(db) && !Holds(db, k, t) && CallUnder(op, k, t)
    requires forall i | 0 <= i < |ops| :: !ClaimOf(ops[i], k, t)
    ensures Step(Run(db, ops), op) == Run(db, ops)
  {
    hide Step;
    NeverHeldAgain(db, ops, k, t);
    StaleCallIsInert(Run(db, ops), op, k, t);
  }

  /** Every lease in the batch is one its job does not hold. */
  ghost predicate AllSuperseded(db: Db, q: QueueId, ls: seq<Lease>) {
    forall l | l in ls :: !Holds(db, Key(q, l.id), l.token)
  }

  /** And so is a batch renewal of superseded leases alone. */
  lemma SupersededRenewalIsInert(db: Db, ops: seq<Op>, q: QueueId, ls: seq<Lease>, ms: int)
    requires LeasesSound(db) && AllSuperseded(db, q, ls)
    requires forall i, l | 0 <= i < |ops| && l in ls :: !ClaimOf(ops[i], Key(q, l.id), l.token)
    ensures Step(Run(db, ops), OpExtendMany(q, ls, ms)) == Run(db, ops)
  {
    hide Step, ClaimOf;
    forall l | l in ls ensures !Holds(Run(db, ops), Key(q, l.id), l.token) {
      NeverHeldAgain(db, ops, Key(q, l.id), l.token);
    }
    NothingRenewed(Run(db, ops), q, ls, ms);
  }

  lemma NothingRenewed(db: Db, q: QueueId, ls: seq<Lease>, ms: int)
    requires AllSuperseded(db, q, ls)
    ensures Step(db, OpExtendMany(q, ls, ms)) == db
  {
    forall k ensures !Renews(db, q, ls, k) {
      if k in db.jobs && k.queue == q && db.jobs[k].lockToken.Some? {
        var l := Lease(k.id, db.jobs[k].lockToken.value);
        assert l in ls ==> !Holds(db, k, l.token);
      }
    }
    assert ExtendMany(db, q, ls, ms).jobs == db.jobs;
  }

  /** The step at position `i` takes lease `t` from job `k`. */
  ghost predicate EndsAt(db: Db, ops: seq<Op>, i: nat, k: Key, t: Token)
    requires i < |ops|
  {
    Holds(At(db, ops, i), k, t) && !Holds(At(db, ops, i + 1), k, t)
  }

  /** With distinct tokens per claim, each claim is ended at most once in any run. */
  lemma EndedAtMostOnce(db: Db, ops: seq<Op>, k: Key, t: Token, i: nat, j: nat)
    requires LeasesSound(db) && i < j < |ops|
    requires forall n | i < n < j :: !ClaimOf(ops[n], k, t)
    ensures !(EndsAt(db, ops, i, k, t) && EndsAt(db, ops, j, k, t))
  {
    hide Step, CallUnder;
    if EndsAt(db, ops, i, k, t) {
      RunSound(db, ops[..i + 1]);
      NeverHeldAgain(At(db, ops, i + 1), ops[i + 1..j], k, t);
      RunSplit(db, ops[..i + 1], ops[i + 1..j]);
      assert ops[..j] == ops[..i + 1] + ops[i + 1..j];
    }
  }
}
