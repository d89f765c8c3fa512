/** The queue as a transition system: every function of the queue is one atomic step, and a
    run is any sequence of steps. A finish or delay that also fetches the next job is the
    finish or delay followed by a claim. */
module Machine {
  import opened Rows
  import opened Adding
  import opened Claiming
  import opened Ending
  import opened Managing
  import opened Flows

  datatype Op =
    | OpTick(ms: nat)
    | OpQueue(queue: QueueId)
    | OpAdd(request: Request)
    | OpFlow(node: Node, parent: Option<Key>)
    | OpClaim(claim: ClaimArgs)
    | OpFinish(finish: FinishArgs)
    | OpRetry(key: Key, token: Token, lifo: bool)
    | OpDelay(key: Key, token: Token, processAt: Millis, delayMs: int, failed: bool)
    | OpToChildren(key: Key, token: Token, child: Option<Key>)
    | OpRelease(key: Key, token: Token)
    | OpSweep(queue: QueueId, maxStalled: int)
    | OpExtend(key: Key, token: Token, durationMs: int)
    | OpExtendMany(queue: QueueId, leases: seq<Lease>, durationMs: int)
    | OpPause(queue: QueueId, paused: bool)
    | OpPromote(key: Key)
    | OpChangePriority(key: Key, priority: int, toHead: bool)
    | OpReprocess(key: Key, resetMade: bool, resetStarted: bool, target: Option<bool>)
    | OpCutEdge(child_: Key, parent_: Key)
    | OpMoveBatch(queue: QueueId, from: JobState, count: nat, upTo: Millis)

  ghost function Step(db: Db, op: Op): Db {
    match op
    case OpTick(ms) => db.(now := db.now + ms)
    case OpQueue(q) => EnsureQueue(db, q)
    case OpAdd(r) => Add(db, r).0
    case OpFlow(n, parent) => AddFlow(db, n, parent)
    case OpClaim(a) => Claim(db, a)
    case OpFinish(a) => Finish(db, a).0
    case OpRetry(k, t, lifo) => Retry(db, k, t, lifo).0
    case OpDelay(k, t, at, ms, failed) => Delay(db, k, t, at, ms, failed).0
    case OpToChildren(k, t, c) => ToChildren(db, k, t, c).0
    case OpRelease(k, t) => Release(db, k, t).0
    case OpSweep(q, m) => Sweep(db, q, m)
    case OpExtend(k, t, ms) => Extend(db, k, t, ms).0
    case OpExtendMany(q, ls, ms) => ExtendMany(db, q, ls, ms)
    case OpPause(q, p) => Pause(db, q, p)
    case OpPromote(k) => Promote(db, k).0
    case OpChangePriority(k, p, h) => ChangePriority(db, k, p, h).0
    case OpReprocess(k, m, s, t) => Reprocess(db, k, m, s, t).0
    case OpCutEdge(c, p) => CutEdge(db, c, p).0
    case OpMoveBatch(q, f, n, t) => MoveBatch(db, q, f, n, t)
  }

  ghost function Run(db: Db, ops: seq<Op>): Db {
    if ops == [] then db
    else Step(Run(db, ops[..|ops| - 1]), ops[|ops| - 1])
  }

  /** A run is the run of its first part followed by the run of the rest. */
  lemma {:induction false} RunSplit(db: Db, ops: seq<Op>, rest: seq<Op>)
    ensures Run(db, ops + rest) == Run(Run(db, ops), rest)
  {
    hide Step;
    if rest == [] {
      assert ops + rest == ops;
    } else {
      var all := ops + rest;
      assert all[..|all| - 1] == ops + rest[..|rest| - 1];
      RunSplit(db, ops, rest[..|rest| - 1]);
    }
  }

  /** The state after the first `n` steps. */
  ghost function At(db: Db, ops: seq<Op>, n: nat): Db
    requires n <= |ops|
  {
    Run(db, ops[..n])
  }

  /** An empty database with its queues configured and their counters at zero. */
  ghost predicate Initial(db: Db) {
    && db.jobs == map[] && db.edges == map[] && db.dedups == map[]
    && forall q | q in db.queues :: db.queues[q].window.None?
  }
}
