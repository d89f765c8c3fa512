/** Whose turn it is: the claim order is strict, rows keep their place in it while they wait,
    plain entries go to the tail and LIFO entries before all their peers. */
module Turns {
  import opened Rows
  import opened Ordering
  import opened Tables
  import opened Places
  import opened Linking
  import opened Adding
  import opened Claiming
  import opened Ending
  import opened Managing
  import opened Flows
  import opened Machine
  import opened Frames
  import opened Lives
  import opened Routing
  import opened Waiting
  import opened Trees

  // ---------------------------------------------------------------- a strict order

  lemma ClaimsBeforeIsStrict(x: Job, y: Job, z: Job)
    requires Claimable(x) && Claimable(y) && Claimable(z)
    ensures !ClaimsBefore(x, x)
    ensures ClaimsBefore(x, y) ==> !ClaimsBefore(y, x)
    ensures ClaimsBefore(x, y) && ClaimsBefore(y, z) ==> ClaimsBefore(x, z)
  {}

  /** While the list of a queue is in order one of any two claimable rows comes first. */
  lemma ClaimsBeforeIsTotal(db: Db, x: Key, y: Key)
    requires InPlace(db) && ListOrdered(db, x.queue)
    requires x in db.jobs && y in db.jobs && x != y && x.queue == y.queue && Claimable(db.jobs[x])
    requires Claimable(db.jobs[y])
    ensures ClaimsBefore(db.jobs[x], db.jobs[y]) || ClaimsBefore(db.jobs[y], db.jobs[x])
  {
    assert db.jobs[x].state == Wait ==> InList(db, x.queue, x);
    assert db.jobs[y].state == Wait ==> InList(db, x.queue, y);
    if Peers(db, x, y) {
      assert Placed(db.queues[x.queue], db.jobs[x]) && Placed(db.queues[y.queue], db.jobs[y]);
      assert db.jobs[x].prioSeq != db.jobs[y].prioSeq;
    }
  }

  predicate NeverPauses(ops: seq<Op>, q: QueueId) {
    forall i | 0 <= i < |ops| :: !Pauses(ops[i], q)
  }

  lemma InitialOrdered(db: Db, q: QueueId)
    requires Initial(db) && !QueueOf(db, q).paused
    ensures InPlace(db) && LeasesSound(db) && WaitOrdered(db, q)
  {}

  /** While a queue that starts running is never paused, its rows in `wait` all have a sequence
      and no two the same. */
  lemma {:induction false} RunOrdered(db: Db, ops: seq<Op>, q: QueueId)
    requires InPlace(db) && LeasesSound(db) && WaitOrdered(db, q) && NeverPauses(ops, q)
    ensures WaitOrdered(Run(db, ops), q)
  {
    if ops != [] {
      hide Step, InPlace, WaitOrdered, LeasesSound;
      var front := ops[..|ops| - 1];
      RunOrdered(db, front, q);
      RunInPlace(db, front);
      RunSound(db, front);
      StepInPlace(Run(db, front), ops[|ops| - 1]);
    }
  }

  // ---------------------------------------------------------------- keeping and taking a place

  predicate ChangesPriority(op: Op, k: Key) {
    op.OpChangePriority? && op.key == k
  }

  /** The steps that put a row in front of its peers. */
  ghost predicate ToHead(db: Db, op: Op, k: Key) {
    match op
    case OpRetry(x, t, lifo) => x == k && lifo && HeldBy(db, k, t)
    case OpRelease(x, t) => x == k && HeldBy(db, k, t)
    case OpChangePriority(x, _, toHead) => x == k && toHead
    case _ => false
  }

  ghost predicate KeepsPrio(db: Db, db': Db, k: Key)
    requires k in db'.jobs
  {
    k in db.jobs && db.jobs[k].pk == db'.jobs[k].pk && db.jobs[k].state == Prioritized
    && db.jobs[k].priority == db'.jobs[k].priority && db.jobs[k].prioSeq == db'.jobs[k].prioSeq
  }

  ghost predicate AtTail(db: Db, db': Db, k: Key)
    requires k in db'.jobs
  {
    db'.jobs[k].prioSeq.Some? && db'.jobs[k].prioSeq.value > QueueOf(db, k.queue).prioNum
  }

  ghost predicate AtHead(db': Db, k: Key)
    requires k in db'.jobs
  {
    db'.jobs[k].prioSeq.Some?
    && forall x | x in db'.jobs && Peers(db', x, k) ::
      db'.jobs[x].prioSeq.Some? && db'.jobs[k].prioSeq.value < db'.jobs[x].prioSeq.value
  }

  /** A prioritized row after the step has kept its place, or entered at the tail, or, by a step
      that says so, at the head. */
  ghost predicate PrioTurn(db: Db, op: Op, db': Db, k: Key)
    requires k in db'.jobs
  {
    db'.jobs[k].state == Prioritized ==>
      if ToHead(db, op, k) then AtHead(db', k)
      else (KeepsPrio(db, db', k) && !ChangesPriority(op, k)) || AtTail(db, db', k)
  }

  /** In the list it was in, under the sequence it had. */
  predicate SameTurnAs(j: Job, j': Job) {
    && (Queued(j) && Queued(j') ==> j'.waitSeq == j.waitSeq)
    && (j.state == Prioritized && j'.state == Prioritized ==> j'.prioSeq == j.prioSeq && j'.priority == j.priority)
  }

  /** A row that stays in its list keeps its sequence. */
  ghost predicate WaitTurn(db: Db, op: Op, db': Db, k: Key)
    requires k in db'.jobs
  {
    k in db.jobs && db.jobs[k].pk == db'.jobs[k].pk && !ChangesPriority(op, k) ==> SameTurnAs(db.jobs[k], db'.jobs[k])
  }

  ghost predicate Turn(db: Db, op: Op, db': Db, k: Key)
    requires k in db'.jobs
  {
    PrioTurn(db, op, db', k) && WaitTurn(db, op, db', k)
  }

  lemma CalmTurn(db: Db, op: Op, db': Db, k: Key)
    requires Calm(db, db') && PksBounded(db) && k in db'.jobs && !ToHead(db, op, k) && !ChangesPriority(op, k)
    ensures Turn(db, op, db', k)
  {
    assert KeptOrNew(db, db', k);
  }

  /** A row that the step leaves as it was. */
  lemma SameTurn(db: Db, op: Op, db': Db, k: Key)
    requires k in db.jobs && k in db'.jobs && !ToHead(db, op, k) && !ChangesPriority(op, k)
    requires db'.jobs[k].state == Prioritized || Queued(db'.jobs[k]) ==> db'.jobs[k] == db.jobs[k]
    ensures Turn(db, op, db', k)
  {}

  /** Calm up to `db1`, where one row is rewritten. */
  lemma SubjectTurn(db: Db, op: Op, db1: Db, db': Db, s: Key, k: Key)
    requires Calm(db, db1) && PksBounded(db) && k in db'.jobs && s in db'.jobs && db'.jobs == db1.jobs[s := db'.jobs[s]]
    requires k != s && !ToHead(db, op, k) && !ChangesPriority(op, k)
    ensures Turn(db, op, db', k)
  {
    assert KeptOrNew(db, db1, k);
  }

  lemma PreparedTurn(db: Db, op: Op, q: QueueId, k: Key)
    requires op.OpClaim? && PksBounded(db) && k in Prepared(db, q).jobs
    ensures Turn(db, op, Prepared(db, q), k)
  {
    hide PromoteDue, Calm, Turn;
    var db0 := DropExpiredWindow(db, q);
    PromoteDueCalm(db0, q);
    CalmTurn(db0, op, Prepared(db, q), k);
    SameRowsTurn(db, db0, op, Prepared(db, q), k);
  }

  lemma SameRowsTurn(db: Db, db0: Db, op: Op, db': Db, k: Key)
    requires db0.jobs == db.jobs && forall q :: QueueOf(db0, q).prioNum == QueueOf(db, q).prioNum
    requires op.OpClaim? && k in db'.jobs && Turn(db0, op, db', k)
    ensures Turn(db, op, db', k)
  {}

  lemma ClaimTurn(db: Db, op: Op, k: Key)
    requires PksBounded(db) && op.OpClaim? && k in Claim(db, op.claim).jobs
    ensures Turn(db, op, Claim(db, op.claim), k)
  {
    hide Prepared, GatesOpen, Turn;
    var a, db' := op.claim, Claim(db, op.claim);
    if a.queue in db.queues {
      PreparedTurn(db, op, a.queue, k);
      ActiveTurn(db, op, Prepared(db, a.queue), db', k);
    } else {
      SameTurn(db, op, db', k);
    }
  }

  lemma ActiveTurn(db: Db, op: Op, db1: Db, db': Db, k: Key)
    requires k in db1.jobs && k in db'.jobs && Turn(db, op, db1, k) && !ToHead(db, op, k)
    requires db'.jobs[k] == db1.jobs[k] || db'.jobs[k].state == Active
    ensures Turn(db, op, db', k)
  {}

  lemma FinishTurn(db: Db, op: Op, k: Key)
    requires LeasesSound(db) && PksBounded(db) && op.OpFinish? && Finishes(db, op.finish)
    requires k in DoFinish(db, op.finish).jobs
    ensures Turn(db, op, DoFinish(db, op.finish), k)
  {
    hide Requeue, NotifyParents, Trim, Calm, Turn;
    var a := op.finish;
    var j := db.jobs[a.key];
    assert Sound(LifeOf(j)) && j.state == Active;
    var db1 := Put(db, a.key, EndedRow(j, a.ok, db.now));
    FinishTailCalm(db1, a, j.payload.opts);
    CalmTurn(db1, op, DoFinish(db, a), k);
    EndedTurn(db, op, db1, DoFinish(db, a), k, a.key);
  }

  lemma EndedTurn(db: Db, op: Op, db1: Db, db': Db, k: Key, s: Key)
    requires k in db'.jobs && Turn(db1, op, db', k) && !ToHead(db, op, k) && !ToHead(db1, op, k)
    requires s in db.jobs && s in db1.jobs && db1.jobs == db.jobs[s := db1.jobs[s]] && db1.queues == db.queues
    requires db.jobs[s].state == Active && Finished(db1.jobs[s])
    ensures Turn(db, op, db', k)
  {}

  lemma RetryTurn(db: Db, op: Op, k: Key)
    requires InPlace(db) && PksBounded(db) && op.OpRetry? && HeldBy(db, op.key, op.token)
    requires k in Retry(db, op.key, op.token, op.lifo).0.jobs
    ensures Turn(db, op, Retry(db, op.key, op.token, op.lifo).0, k)
  {
    hide PromoteDue, RetryRow, Calm, Turn, InPlace;
    var s := op.key;
    var db1 := PromoteDue(db, s.queue);
    var db' := RetryRow(db1, s, op.lifo);
    PromoteDueCalm(db, s.queue);
    RetryRowShape(db1, s, op.lifo);
    if k == s {
      assert s !in Due(db, s.queue);
      InPlaceAt(db, s);
      RetriedTurn(db, db1, op) by { CalmInPlace(db, db1); }
    } else {
      SubjectTurn(db, op, db1, db', s, k);
    }
  }

  lemma RetriedTurn(db: Db, db1: Db, op: Op)
    requires op.OpRetry? && HeldBy(db, op.key, op.token) && op.key in db1.jobs && db1.jobs[op.key] == db.jobs[op.key]
    requires db.jobs[op.key].state == Active && InPlace(db1) && Calm(db, db1) && op.key.queue in db.queues
    ensures Turn(db, op, RetryRow(db1, op.key, op.lifo), op.key)
  {
    hide AtHead, PrioHead, Least, WaitSeqs, Calm, PeersDistinct;
    var k := op.key;
    var q := k.queue;
    CalmQueue(db, db1, q);
    if db.jobs[k].priority > 0 && op.lifo {
      var j := db1.jobs[k].(attemptsMade := db1.jobs[k].attemptsMade + 1, lockToken := None, lockExpires := None);
      HeadTurn(db1, k, j.(state := Prioritized, waitSeq := None), j.priority);
    }
  }

  /** A row written at the head of its priority precedes all its peers. */
  lemma HeadTurn(db: Db, k: Key, j: Job, priority: int)
    requires AllPlaced(db) && k.queue in db.queues && j.priority == priority
    ensures AtHead(Put(db, k, j.(prioSeq := Some(PrioHead(db, k.queue, priority, k)))), k)
  {
    PrioHeadFits(db, k.queue, priority, k);
    var db' := Put(db, k, j.(prioSeq := Some(PrioHead(db, k.queue, priority, k))));
    forall x | x in db'.jobs && Peers(db', x, k)
      ensures db'.jobs[x].prioSeq.Some? && db'.jobs[k].prioSeq.value < db'.jobs[x].prioSeq.value {
      assert Placed(db.queues[x.queue], db.jobs[x]);
    }
  }

  lemma ReleaseTurn(db: Db, op: Op, k: Key)
    requires InPlace(db) && PksBounded(db) && op.OpRelease? && HeldBy(db, op.key, op.token)
    requires k in Release(db, op.key, op.token).0.jobs
    ensures Turn(db, op, Release(db, op.key, op.token).0, k)
  {
    var s, db' := op.key, Release(db, op.key, op.token).0;
    if k == s {
      hide HeadOfList, PrioHead;
      var j := Unlocked(db.jobs[s]);
      HeadOfListShape(db, s, j, Paused);
      HeadOfListShape(db, s, j, Wait);
      HeadTurn(db, s, j.(state := Prioritized, waitSeq := None), j.priority);
    } else {
      hide Release;
      ReleaseShape(db, s, op.token);
      SameTurn(db, op, db', k);
    }
  }

  lemma ChangePriorityTurn(db: Db, op: Op, k: Key)
    requires InPlace(db) && op.OpChangePriority? && k in ChangePriority(db, op.key, op.priority, op.toHead).0.jobs
    ensures Turn(db, op, ChangePriority(db, op.key, op.priority, op.toHead).0, k)
  {
    var s, p := op.key, op.priority;
    var db' := ChangePriority(db, s, p, op.toHead).0;
    if s !in db.jobs {
      SameTurn(db, op, db', k);
    } else if k != s {
      hide ChangePriority;
      ChangePriorityShape(db, s, p, op.toHead);
      SameTurn(db, op, db', k);
    } else {
      hide WaitSeqs, Least, PrioHead;
      var j := db.jobs[s];
      InPlaceAt(db, s);
      HeadTurn(db, s, j.(priority := p, waitSeq := None, state := Prioritized), p);
    }
  }

  lemma SweepTurn(db: Db, op: Op, k: Key)
    requires op.OpSweep? && k in db.jobs
    ensures Turn(db, op, Sweep(db, op.queue, op.maxStalled), k)
  {
    hide SweepNumber;
  }

  lemma MoveOneTurn(db: Db, k: Key, from: JobState)
    requires k in db.jobs
    ensures MoveOne(db, k, from).jobs[k].state == Prioritized ==> AtTail(db, MoveOne(db, k, from), k)
    ensures forall q :: QueueOf(MoveOne(db, k, from), q).prioNum >= QueueOf(db, q).prioNum
  {}

  lemma {:induction false} MoveSeqTurn(db: Db, ks: seq<Key>, from: JobState)
    requires Distinct(ks) && forall i | 0 <= i < |ks| :: ks[i] in db.jobs
    ensures var db' := MoveSeq(db, ks, from);
      && (forall q :: QueueOf(db', q).prioNum >= QueueOf(db, q).prioNum)
      && (forall k | k in ks && k in db'.jobs && db'.jobs[k].state == Prioritized :: AtTail(db, db', k))
  {
    if ks != [] {
      hide MoveOne;
      var front, k := ks[..|ks| - 1], ks[|ks| - 1];
      assert ks == front + [k] && k !in front;
      MoveSeqTurn(db, front, from);
      MoveSeqRows(db, front, from);
      var db1 := MoveSeq(db, front, from);
      MoveOneTurn(db1, k, from);
      MoveOneShape(db1, k, from);
    }
  }

  lemma MoveBatchTurn(db: Db, op: Op, k: Key)
    requires op.OpMoveBatch? && k in Step(db, op).jobs
    ensures Turn(db, op, Step(db, op), k)
  {
    hide Sorted, FirstN, MoveSeq;
    var st := SourceState(op.from);
    var ks := FirstN(Sorted(BatchOrder(st), db.jobs, Movable(db, op.queue, st, op.upTo)), op.count);
    MovedListed(db, op.queue, st, op.count, op.upTo);
    MoveSeqRows(db, ks, st);
    MoveSeqTurn(db, ks, st);
    if k !in ks { SameTurn(db, op, MoveSeq(db, ks, st), k); }
  }

  lemma CutEdgeTurn(db: Db, op: Op, k: Key)
    requires op.OpCutEdge? && k in Step(db, op).jobs
    ensures Turn(db, op, Step(db, op), k)
  {
    hide HasEdge, Linked;
  }

  lemma PauseTurn(db: Db, op: Op, k: Key)
    requires op.OpPause? && k in Step(db, op).jobs
    ensures Turn(db, op, Step(db, op), k)
  {}

  lemma PromoteTurn(db: Db, op: Op, k: Key)
    requires op.OpPromote? && k in Promote(db, op.key).0.jobs
    ensures Turn(db, op, Promote(db, op.key).0, k)
  {}

  lemma ReprocessTurn(db: Db, op: Op, k: Key)
    requires op.OpReprocess? && k in Reprocess(db, op.key, op.resetMade, op.resetStarted, op.target).0.jobs
    ensures Turn(db, op, Reprocess(db, op.key, op.resetMade, op.resetStarted, op.target).0, k)
  {}

  lemma LeaseTurn(db: Db, op: Op, k: Key)
    requires op.OpDelay? || op.OpToChildren? || op.OpExtend?
    requires k in Step(db, op).jobs
    ensures Turn(db, op, Step(db, op), k)
  {
    hide HasEdge, HasPendingChild, Turn;
    SameTurn(db, op, Step(db, op), k);
  }

  lemma OtherTurn(db: Db, op: Op, k: Key)
    requires op.OpTick? || op.OpQueue? || op.OpExtendMany?
    requires k in Step(db, op).jobs
    ensures Turn(db, op, Step(db, op), k)
  {
    hide Renews;
  }

  /** Every row, after every step, is where the rules of the queue put it. */
  lemma StepTurn(db: Db, op: Op, k: Key)
    requires LeasesSound(db) && InPlace(db) && PksBounded(db) && k in Step(db, op).jobs
    ensures Turn(db, op, Step(db, op), k)
  {
    hide Turn, LeasesSound, InPlace, Calm, EdgesCalm, DoFinish, Finishes, Add, AddNode, Retry, Release, Sweep;
    hide ChangePriority, MoveBatch, CutEdge, Claim;
    match op
    case OpAdd(r) => AddGentle(db, r); CalmTurn(db, op, Step(db, op), k);
    case OpFlow(n, p) => AddFlowGentle(db, n, p); CalmTurn(db, op, Step(db, op), k);
    case OpClaim(a) => ClaimTurn(db, op, k);
    case OpFinish(a) => if Finishes(db, a) { FinishTurn(db, op, k); } else { SameTurn(db, op, db, k); }
    case OpRetry(s, t, l) =>
      if HeldBy(db, s, t) { RetryTurn(db, op, k); } else { RefusedStep(db, op); SameTurn(db, op, db, k); }
    case OpRelease(s, t) =>
      if HeldBy(db, s, t) { ReleaseTurn(db, op, k); } else { RefusedStep(db, op); SameTurn(db, op, db, k); }
    case OpChangePriority(s, p, h) => ChangePriorityTurn(db, op, k);
    case OpSweep(q, m) => SweepTurn(db, op, k) by { SweepKeys(db, q, m); }
    case OpMoveBatch(q, f, n, t) => MoveBatchTurn(db, op, k);
    case OpCutEdge(c, p) => CutEdgeTurn(db, op, k);
    case OpPause(q, p) => PauseTurn(db, op, k);
    case OpPromote(s) => PromoteTurn(db, op, k);
    case OpReprocess(s, m, r, t) => ReprocessTurn(db, op, k);
    case OpDelay(_, _, _, _, _) => LeaseTurn(db, op, k);
    case OpToChildren(_, _, _) => LeaseTurn(db, op, k);
    case OpExtend(_, _, _) => LeaseTurn(db, op, k);
    case _ => OtherTurn(db, op, k);
  }

  lemma RefusedStep(db: Db, op: Op)
    requires op.OpRetry? || op.OpRelease?
    requires !HeldBy(db, op.key, op.token)
    ensures Step(db, op) == db
  {}

  lemma SweepKeys(db: Db, q: QueueId, m: int)
    ensures Sweep(db, q, m).jobs.Keys == db.jobs.Keys
  {}

  // ---------------------------------------------------------------- who goes first

  ghost predicate StoodBy(db: Db, op: Op, db': Db, k: Key)
    requires k in db'.jobs
  {
    KeepsPrio(db, db', k) && !ChangesPriority(op, k)
  }

  /** A row that enters a priority goes behind every peer already there, or, when the step says
      so, in front of all of them. */
  lemma EntryOrder(db: Db, op: Op, x: Key, y: Key)
    requires LeasesSound(db) && InPlace(db) && PksBounded(db)
    requires var db' := Step(db, op); x in db'.jobs && y in db'.jobs && Peers(db', x, y)
    requires StoodBy(db, op, Step(db, op), x) && !StoodBy(db, op, Step(db, op), y)
    ensures var db' := Step(db, op);
      if ToHead(db, op, y) then ClaimsBefore(db'.jobs[y], db'.jobs[x]) else ClaimsBefore(db'.jobs[x], db'.jobs[y])
  {
    hide Step;
    StepTurn(db, op, y);
    assert Placed(db.queues[x.queue], db.jobs[x]);
    assert QueueOf(db, x.queue) == db.queues[x.queue];
  }

  /** `x` is in front of `y` in one list of one queue. */
  predicate Ahead(x: Job, y: Job) {
    || (Queued(x) && Queued(y) && SeqLess(x.waitSeq, y.waitSeq))
    || (x.state == Prioritized && y.state == Prioritized && x.priority == y.priority && SeqLess(x.prioSeq, y.prioSeq))
  }

  predicate SameList(j: Job, j': Job) {
    (Queued(j) && Queued(j')) || (j.state == Prioritized && j'.state == Prioritized)
  }

  /** After the step the row is still in its list, and the step does not change its priority. */
  ghost predicate StandsAfter(db: Db, k: Key, op: Op, db': Db) {
    k in db.jobs && k in db'.jobs && db'.jobs[k].pk == db.jobs[k].pk
      && SameList(db.jobs[k], db'.jobs[k]) && !ChangesPriority(op, k)
  }

  ghost predicate StandsIn(db: Db, ops: seq<Op>, k: Key) {
    k in db.jobs && forall i | 0 <= i < |ops| :: StandsAfter(db, k, ops[i], At(db, ops, i + 1))
  }

  lemma StandsFront(db: Db, ops: seq<Op>, k: Key)
    requires ops != [] && StandsIn(db, ops, k)
    ensures StandsIn(db, ops[..|ops| - 1], k) && StandsAfter(db, k, ops[|ops| - 1], Run(db, ops))
  {
    hide Run, StandsAfter;
    var front, n := ops[..|ops| - 1], |ops| - 1;
    forall i | 0 <= i < |front| ensures StandsAfter(db, k, front[i], At(db, front, i + 1)) {
      assert front[..i + 1] == ops[..i + 1];
      assert StandsAfter(db, k, ops[i], At(db, ops, i + 1));
    }
    assert ops[..n + 1] == ops;
    assert StandsAfter(db, k, ops[n], At(db, ops, n + 1));
  }

  /** A row that stands keeps its sequence. */
  lemma {:induction false} StandsStill(db: Db, ops: seq<Op>, k: Key)
    requires LeasesSound(db) && InPlace(db) && PksBounded(db) && StandsIn(db, ops, k)
    requires (Queued(db.jobs[k]) || db.jobs[k].state == Prioritized)
    ensures k in Run(db, ops).jobs
    ensures var j := Run(db, ops).jobs[k]; SameList(db.jobs[k], j) && SameTurnAs(db.jobs[k], j) && j.pk == db.jobs[k].pk
  {
    if ops != [] {
      hide Step, StandsIn;
      var front := ops[..|ops| - 1];
      var prev := Run(db, front);
      StandsFront(db, ops, k);
      StandsStill(db, front, k);
      RunSound(db, front);
      RunInPlace(db, front);
      RunPks(db, front);
      StepTurn(prev, ops[|ops| - 1], k);
    }
  }

  lemma NotPicked(db: Db, a: ClaimArgs, x: Key, y: Key)
    requires InPlace(db) && x in db.jobs && y in db.jobs && x.queue == y.queue && Ahead(db.jobs[x], db.jobs[y])
    ensures !(Takes(db, a) && a.pick == y)
  {
    if Takes(db, a) && a.pick == y {
      hide LiveLeases, Throttled;
      var db1 := Prepared(db, a.queue);
      assert a.queue == y.queue;
      PreparedRows(db, a.queue);
      PreparedInPlace(db, a.queue);
      assert db1.jobs[x] == db.jobs[x] && db1.jobs[y] == db.jobs[y];
      assert Placed(db1.queues[x.queue], db1.jobs[x]);
      PickIsFirst(db1, a.queue, y, x);
    }
  }

  /** The row taken has no claimable row before it. */
  lemma PickIsFirst(db: Db, q: QueueId, k: Key, x: Key)
    requires Picks(db, q, k) && x in db.jobs && x.queue == q && Claimable(db.jobs[x])
    ensures !ClaimsBefore(db.jobs[x], db.jobs[k])
  {}

  /** While both stand in their list, the one in front keeps the other from being claimed. */
  lemma LineHolds(db: Db, ops: seq<Op>, x: Key, y: Key, a: ClaimArgs)
    requires LeasesSound(db) && InPlace(db) && PksBounded(db)
    requires StandsIn(db, ops, x) && StandsIn(db, ops, y) && x.queue == y.queue && Ahead(db.jobs[x], db.jobs[y])
    ensures !(Takes(Run(db, ops), a) && a.pick == y)
  {
    hide Step, StandsIn, Takes, InPlace;
    assert x in db.jobs && y in db.jobs by { StandsHere(db, ops, x); StandsHere(db, ops, y); }
    StandsStill(db, ops, x);
    StandsStill(db, ops, y);
    RunInPlace(db, ops);
    NotPicked(Run(db, ops), a, x, y);
  }

  lemma StandsHere(db: Db, ops: seq<Op>, k: Key)
    requires StandsIn(db, ops, k)
    ensures k in db.jobs
  {}

  /** The next wait sequence lies behind every sequence of the queue. */
  lemma EntersBehindAll(db: Db, k: Key, j: Job, x: Key)
    requires AllPlaced(db) && x in db.jobs && x.queue == k.queue && x != k && db.jobs[x].waitSeq.Some?
    ensures var db' := Enqueue(db, k, j);
      db'.jobs[x] == db.jobs[x] && SeqLess(db'.jobs[x].waitSeq, db'.jobs[k].waitSeq)
        && !SeqLess(db'.jobs[k].waitSeq, db'.jobs[x].waitSeq)
  {
    assert Placed(db.queues[x.queue], db.jobs[x]);
  }

  // ---------------------------------------------------------------- plain adds

  /** An insert brings one new row, as `InsertRow` writes it. */
  lemma InsertNewRow(db: Db, r: Request, key: Key, k: Key)
    requires key.queue in db.queues && k !in db.jobs && k in Insert(db, r, key).0.jobs
    ensures k == key
    ensures var db1 := if r.dedup.Some? then ClearStale(db, r.queue, r.dedup.value) else db;
      key !in db1.jobs && db1.queues == db.queues && k in InsertRow(db1, key, r).jobs
      && Insert(db, r, key).0.jobs[k] == InsertRow(db1, key, r).jobs[k]
  {
    hide InsertRow, Link, InsertConflict, ClearStale;
    var db1 := if r.dedup.Some? then ClearStale(db, r.queue, r.dedup.value) else db;
    if r.dedup.Some? { ClearStaleGentle(db, r.queue, r.dedup.value); }
    if key in db1.jobs {
      ConflictKeepsRows(db1, key, r);
    } else {
      InsertRowGains(db1, key, r);
      var db3 := HoldDedup(InsertRow(db1, key, r), r, key.id);
      if r.parent.Some? { LinkKeepsParked(db3, r.parent.value, key); }
    }
  }

  predicate TailRow(j: Job, waitNum: nat) {
    Queued(j) && j.waitSeq == Some(waitNum + 1)
  }

  lemma InsertAtTail(db: Db, r: Request, key: Key, k: Key)
    requires r.kind == Standard && !r.payload.opts.lifo
    requires key.queue in db.queues && k !in db.jobs && k in Insert(db, r, key).0.jobs
    ensures k == key && TailRow(Insert(db, r, key).0.jobs[k], db.queues[key.queue].waitNum)
  {
    hide Insert, ClearStale;
    InsertNewRow(db, r, key, k);
  }

  lemma ReplaceAtTail(db: Db, r: Request, key: Key, k: Key)
    requires r.kind == Standard && !r.payload.opts.lifo && Replaces(r)
    requires key.queue in db.queues && k !in db.jobs && k in Replace(db, r, key).0.jobs
    ensures k == key && TailRow(Replace(db, r, key).0.jobs[k], db.queues[key.queue].waitNum)
  {
    hide Insert;
    var dk := DedupKey(r.queue, r.dedup.value);
    if dk !in db.dedups {
      InsertAtTail(db, r, key, k);
    } else {
      var h := Key(r.queue, db.dedups[dk].job);
      if h in db.jobs && db.jobs[h].state in Replaceable(r.kind) {
        InsertAtTail(DeleteDedups(DeleteJobs(db, {h}), {dk}), r, key, k);
      }
    }
  }

  /** A plain add takes the tail of the wait list, behind every sequence handed out so far. */
  lemma PlainAddAtTail(db: Db, r: Request, k: Key)
    requires r.kind == Standard && !r.payload.opts.lifo
    requires k !in db.jobs && k in Add(db, r).0.jobs
    ensures k.queue == r.queue && TailRow(Add(db, r).0.jobs[k], QueueOf(db, k.queue).waitNum)
  {
    hide Insert, Replace, AddExisting, TailRow;
    if r.queue in db.queues {
      var q := db.queues[r.queue];
      var key := Key(r.queue, if r.custom.Some? then r.custom.value else q.jobNum + 1);
      var db1 := if r.custom.Some? then db else PutQueue(db, r.queue, q.(jobNum := q.jobNum + 1));
      if r.parent.Some? && r.parent.value !in db1.jobs {
      } else if r.custom.Some? && key in db1.jobs {
        ExistingKeys(db1, r, key);
      } else if Suppressed(db1, r) {
      } else if Replaces(r) {
        ReplaceAtTail(db1, r, key, k);
      } else {
        InsertAtTail(db1, r, key, k);
      }
    }
  }

  lemma ExistingKeys(db: Db, r: Request, k: Key)
    requires k in db.jobs
    ensures AddExisting(db, r, k).0.jobs.Keys == db.jobs.Keys
  {
    hide Link;
    if r.parent.Some? { LinkGains(db, r.parent.value, k); }
  }

  /** First come, first served: a plain add `y` is not claimed while a row `x` that was waiting
      before it, under a sequence of its own, still waits. */
  lemma FirstComeFirstServed(db: Db, r: Request, ops: seq<Op>, x: Key, y: Key, a: ClaimArgs)
    requires LeasesSound(db) && InPlace(db) && PksBounded(db)
    requires r.kind == Standard && !r.payload.opts.lifo && y !in db.jobs && y in Add(db, r).0.jobs
    requires x in db.jobs && x.queue == y.queue && Queued(db.jobs[x]) && db.jobs[x].waitSeq.Some?
    requires StandsAfter(db, x, OpAdd(r), Add(db, r).0)
    requires StandsIn(Add(db, r).0, ops, x) && StandsIn(Add(db, r).0, ops, y)
    ensures !(Takes(Run(Add(db, r).0, ops), a) && a.pick == y)
  {
    hide Add, Run, StandsIn, Takes;
    var db', op := Add(db, r).0, OpAdd(r);
    assert Step(db, op) == db';
    StepSound(db, op);
    StepInPlace(db, op);
    StepPks(db, op);
    StepTurn(db, op, x);
    PlainAddAtTail(db, r, y);
    assert Placed(db.queues[x.queue], db.jobs[x]);
    LineHolds(db', ops, x, y, a);
  }

  // ---------------------------------------------------------------- the head of the wait list

  /** The row is in front of every other row of its wait list that has a sequence. */
  ghost predicate InFront(db: Db, k: Key) {
    k in db.jobs
    && forall x | x in db.jobs && x != k && x.queue == k.queue && Queued(db.jobs[x]) && db.jobs[x].waitSeq.Some? ::
         SeqLess(db.jobs[k].waitSeq, db.jobs[x].waitSeq)
  }

  /** A row written one below the least sequence of the list is in front. */
  lemma BelowLeastIsInFront(db: Db, k: Key, j: Job, states: set<JobState>, except: Option<Key>, fallback: int)
    requires except.Some? ==> except.value == k
    requires forall x | x in db.jobs && x.queue == k.queue && Queued(db.jobs[x]) :: db.jobs[x].state in states
    requires var m := Least(WaitSeqs(db, k.queue, states, except));
      j.waitSeq == Some(if m.Some? then m.value - 1 else fallback)
    ensures InFront(Put(db, k, j), k)
  {
    var seqs := WaitSeqs(db, k.queue, states, except);
    forall x | x in db.jobs && x != k && x.queue == k.queue && Queued(db.jobs[x]) && db.jobs[x].waitSeq.Some?
      ensures db.jobs[x].waitSeq.value in seqs
    {}
  }

  lemma OneListOnly(db: Db, q: QueueId)
    requires AllPlaced(db)
    ensures forall x | x in db.jobs && x.queue == q && Queued(db.jobs[x]) :: db.jobs[x].state == Route(QueueOf(db, q))
  {
    forall x | x in db.jobs && x.queue == q && Queued(db.jobs[x]) ensures db.jobs[x].state == Route(QueueOf(db, q)) {
      assert Placed(db.queues[x.queue], db.jobs[x]);
    }
  }

  lemma HeadOfListInFront(db: Db, k: Key, j: Job, state: JobState)
    requires AllPlaced(db) && state == Route(QueueOf(db, k.queue))
    ensures InFront(HeadOfList(db, k, j, state), k)
  {
    hide WaitSeqs, Least;
    OneListOnly(db, k.queue);
    var m := Least(WaitSeqs(db, k.queue, {state}, None));
    var j' := j.(state := state, waitSeq := Some(if m.Some? then m.value - 1 else QueueOf(db, k.queue).waitNum + 1));
    BelowLeastIsInFront(db, k, j', {state}, None, QueueOf(db, k.queue).waitNum + 1);
    assert HeadOfList(db, k, j, state).jobs == Put(db, k, j').jobs;
  }

  lemma RetriedInFront(db: Db, k: Key)
    requires AllPlaced(db) && k in db.jobs && db.jobs[k].priority <= 0 && !QueueOf(db, k.queue).paused
    ensures InFront(RetryRow(db, k, true), k)
  {
    hide WaitSeqs, Least;
    OneListOnly(db, k.queue);
    BelowLeastIsInFront(db, k, RetryRow(db, k, true).jobs[k], {Wait}, None, 0);
  }

  lemma RetryFirst(db: Db, k: Key, t: Token)
    requires InPlace(db) && HeldBy(db, k, t) && !QueueOf(db, k.queue).paused
    requires Queued(Retry(db, k, t, true).0.jobs[k])
    ensures InFront(Retry(db, k, t, true).0, k)
  {
    hide PromoteDue, Calm, InPlace, PeersDistinct, InFront;
    var db1 := PromoteDue(db, k.queue);
    InPlaceAt(db, k);
    PromoteDueCalm(db, k.queue);
    assert k !in Due(db, k.queue);
    CalmQueue(db, db1, k.queue);
    RetriedInFront(db1, k) by { CalmInPlace(db, db1); PlacedAll(db1); }
  }

  lemma PlacedAll(db: Db)
    requires InPlace(db)
    ensures AllPlaced(db)
  {}

  lemma ReleaseFirst(db: Db, k: Key, t: Token)
    requires InPlace(db) && HeldBy(db, k, t) && Queued(Release(db, k, t).0.jobs[k])
    ensures InFront(Release(db, k, t).0, k)
  {
    hide HeadOfList, PrioHead, InFront;
    var j := Unlocked(db.jobs[k]);
    InPlaceAt(db, k);
    HeadOfListInFront(db, k, j, Route(QueueOf(db, k.queue)));
  }

  lemma ChangeFirst(db: Db, k: Key, p: int)
    requires k in db.jobs && (Queued(db.jobs[k]) || db.jobs[k].state == Prioritized) && p <= 0
    ensures InFront(ChangePriority(db, k, p, true).0, k)
  {
    hide WaitSeqs, Least;
    var n := QueueOf(db, k.queue).waitNum + 1;
    var j := ChangePriority(db, k, p, true).0.jobs[k];
    BelowLeastIsInFront(db, k, j, {Wait, Paused}, Some(k), n);
    assert ChangePriority(db, k, p, true).0.jobs == Put(db, k, j).jobs;
  }

  /** Retried, released or moved to the head, a row without priority is in front of its list; a
      retry needs its queue to be running. */
  lemma HeadEntersFirst(db: Db, op: Op, k: Key)
    requires InPlace(db) && ToHead(db, op, k) && k in Step(db, op).jobs && Queued(Step(db, op).jobs[k])
    requires op.OpRetry? ==> !QueueOf(db, k.queue).paused
    requires op.OpChangePriority? ==> op.priority <= 0
    ensures InFront(Step(db, op), k)
  {
    hide InFront, Retry, Release, InPlace;
    match op
    case OpRetry(_, t, _) => RetryFirst(db, k, t);
    case OpRelease(_, t) => ReleaseFirst(db, k, t);
    case OpChangePriority(_, p, _) => MovedToHead(db, op, k);
  }

  lemma MovedToHead(db: Db, op: Op, k: Key)
    requires op.OpChangePriority? && op.key == k && op.toHead && op.priority <= 0
    requires k in Step(db, op).jobs && Queued(Step(db, op).jobs[k])
    ensures InFront(Step(db, op), k)
  {
    hide InFront;
    ChangeFirst(db, k, op.priority);
  }

  /** Where promotion puts row `k`: a plain job at the tail of its list, one with a priority in its
      priority, or under pause among the paused rows with whatever wait sequence it had. */
  ghost predicate PromotedRow(db: Db, db': Db, k: Key)
    requires k in db.jobs && k in db'.jobs
  {
    var q, j, j' := QueueOf(db, k.queue), db.jobs[k], db'.jobs[k];
    && j'.priority == j.priority
    && if j.priority > 0 then j'.state == (if q.paused then Paused else Prioritized) && j'.waitSeq == j.waitSeq
       else j'.state == Route(q) && j'.waitSeq.Some? && j'.waitSeq.value > q.waitNum
  }

  predicate SameFlagLaterSeq(q: Queue, q': Queue) {
    q'.paused == q.paused && q'.waitNum >= q.waitNum
  }

  lemma PromotedLater(db: Db, db1: Db, db': Db, k: Key)
    requires k in db.jobs && k in db1.jobs && k in db'.jobs && db1.jobs[k] == db.jobs[k] && PromotedRow(db1, db', k)
    requires SameFlagLaterSeq(QueueOf(db, k.queue), QueueOf(db1, k.queue))
    ensures PromotedRow(db, db', k)
  {}

  ghost predicate AllPromoted(db: Db, db': Db, ks: seq<Key>) {
    && (forall k | k in ks :: k in db.jobs && k in db'.jobs && PromotedRow(db, db', k))
    && (forall q :: SameFlagLaterSeq(QueueOf(db, q), QueueOf(db', q)))
  }

  lemma {:induction false} PromoteSeqRows(db: Db, ks: seq<Key>)
    requires AllDelayed(db, ks)
    ensures AllPromoted(db, PromoteSeq(db, ks), ks)
  {
    if ks != [] {
      hide PromoteOne, PromoteSeq, AllDelayed, Calm, AllPromoted, CalmRow;
      var front, k := ks[..|ks| - 1], ks[|ks| - 1];
      assert ks == front + [k];
      AllDelayedSnoc(db, front, k);
      PromoteSeqRows(db, front);
      PromoteSeqCalm(db, front);
      PromoteSeqSnoc(db, front, k);
      PromotedSnoc(db, PromoteSeq(db, front), front, k);
    } else {
      assert PromoteSeq(db, ks) == db;
    }
  }

  lemma PromotedSnoc(db: Db, db1: Db, front: seq<Key>, k: Key)
    requires AllPromoted(db, db1, front) && k !in front && k in db.jobs && k in db1.jobs && db1.jobs[k] == db.jobs[k]
    ensures AllPromoted(db, PromoteOne(db1, k), front + [k])
  {
    hide PromoteOne, PromotedRow, QueueOf;
    var db' := PromoteOne(db1, k);
    PromotedOne(db1, k);
    PromotedLater(db, db1, db', k);
    forall x | x in front + [k] ensures x in db.jobs && x in db'.jobs && PromotedRow(db, db', x) {
      if x != k { PromotedStays(db, db1, db', x); }
    }
  }

  lemma PromotedStays(db: Db, db1: Db, db': Db, k: Key)
    requires k in db.jobs && k in db1.jobs && k in db'.jobs && db'.jobs[k] == db1.jobs[k] && PromotedRow(db, db1, k)
    ensures PromotedRow(db, db', k)
  {}

  lemma PromotedOne(db: Db, k: Key)
    requires k in db.jobs
    ensures PromotedRow(db, PromoteOne(db, k), k) && PromoteOne(db, k).jobs == db.jobs[k := PromoteOne(db, k).jobs[k]]
    ensures forall q :: SameFlagLaterSeq(QueueOf(db, q), QueueOf(PromoteOne(db, k), q))
  {}

  lemma PromoteDueRows(db: Db, q: QueueId, k: Key)
    requires k in Due(db, q)
    ensures k in PromoteDue(db, q).jobs && PromotedRow(db, PromoteDue(db, q), k)
  {
    hide PromotedRow, PromoteSeq, QueueOf;
    DueListed(db, q);
    var ks := Sorted(ByDue, db.jobs, Due(db, q));
    SortedInOrder(ByDue, db.jobs, Due(db, q));
    PromoteSeqRows(db, ks);
  }

  /** A promotion by hand puts the job where promotion in due time would, under the same sequences
      and counters; it forgets the due time and keeps the delay. */
  lemma PromotesLikeDue(db: Db, k: Key)
    requires k in db.jobs && db.jobs[k].state == Delayed
    ensures var due := PromoteOne(db, k);
      Promote(db, k) == (Put(due, k, due.jobs[k].(processAt := None, delayMs := db.jobs[k].delayMs)), Ok)
    ensures k in Promote(db, k).0.jobs && PromotedRow(db, Promote(db, k).0, k)
  {
    PromotedOne(db, k);
    var due := PromoteOne(db, k);
    assert Promote(db, k).0.jobs == due.jobs[k := due.jobs[k].(processAt := None, delayMs := db.jobs[k].delayMs)];
  }

  /** A row that stands in the paused list once the due rows of its queue have been promoted,
      under a wait sequence it has now. */
  ghost predicate PausedWithSeq(db: Db, q: QueueId, x: Key) {
    && x in db.jobs && x.queue == q && db.jobs[x].waitSeq.Some?
    && (Queued(db.jobs[x]) || (x in Due(db, q) && db.jobs[x].priority > 0))
  }

  lemma RetryRowUnderPause(db: Db, k: Key)
    requires AllPlaced(db) && k in db.jobs && db.jobs[k].priority <= 0 && QueueOf(db, k.queue).paused
    ensures var db' := RetryRow(db, k, true);
      && db'.jobs == db.jobs[k := db'.jobs[k]] && db'.jobs[k].state == Paused && db'.jobs[k].waitSeq == Some(0)
  {
    OneListOnly(db, k.queue);
    assert WaitSeqs(db, k.queue, {Wait}, None) == {};
  }

  /** Which rows the paused list has after the promotion, and under which sequences. */
  lemma PromotedList(db: Db, q: QueueId, x: Key)
    requires QueueOf(db, q).paused && x in db.jobs && x.queue == q
    ensures var j' := PromoteDue(db, q).jobs[x];
      && (PausedWithSeq(db, q, x) ==> Queued(j') && j'.waitSeq == db.jobs[x].waitSeq)
      && (Queued(j') && j'.waitSeq.Some? && !PausedWithSeq(db, q, x) ==> j'.waitSeq.value > 0)
  {
    hide PromoteDue, Calm, CalmRow;
    PromoteDueCalm(db, q);
    if x in Due(db, q) { PromoteDueRows(db, q, x); }
  }

  /** Row `x` of the queue after a LIFO retry of another row under pause. */
  ghost predicate ListedAs(db: Db, db': Db, q: QueueId, x: Key)
    requires x in db'.jobs
  {
    && (PausedWithSeq(db, q, x) ==> Queued(db'.jobs[x]) && db'.jobs[x].waitSeq == db.jobs[x].waitSeq)
    && (Queued(db'.jobs[x]) && db'.jobs[x].waitSeq.Some? && !PausedWithSeq(db, q, x) ==> db'.jobs[x].waitSeq.value > 0)
  }

  ghost predicate SharesZero(db: Db, k: Key) {
    exists x :: x in db.jobs && x != k && x.queue == k.queue && Queued(db.jobs[x]) && db.jobs[x].waitSeq == Some(0)
  }

  /** A row under sequence 0 in a list of which this is known. */
  lemma ZeroInList(db: Db, db': Db, k: Key)
    requires k in db'.jobs && db'.jobs[k].waitSeq == Some(0) && !PausedWithSeq(db, k.queue, k)
    requires db'.jobs.Keys == db.jobs.Keys
    requires forall x | x in db'.jobs && x != k && x.queue == k.queue :: ListedAs(db, db', k.queue, x)
    ensures InFront(db', k) <==> forall x | PausedWithSeq(db, k.queue, x) :: db.jobs[x].waitSeq.value > 0
    ensures SharesZero(db', k) <==> exists x :: PausedWithSeq(db, k.queue, x) && db.jobs[x].waitSeq == Some(0)
  {
    hide Due;
    var q := k.queue;
    forall x | PausedWithSeq(db, q, x) ensures x in db'.jobs && x != k && ListedAs(db, db', q, x) {}
    if InFront(db', k) {
      forall x | PausedWithSeq(db, q, x) ensures db.jobs[x].waitSeq.value > 0 { assert ListedAs(db, db', q, x); }
    }
    if x :| PausedWithSeq(db, q, x) && db.jobs[x].waitSeq == Some(0) { assert ListedAs(db, db', q, x); }
  }

  /** Under pause a LIFO retry looks at the empty `wait` list alone. The row gets sequence 0
      whatever the paused rows have: it is in front exactly when all of those are positive, and
      shares its sequence exactly when one of them is 0. */
  lemma RetryUnderPause(db: Db, k: Key, t: Token)
    requires InPlace(db) && HeldBy(db, k, t) && db.jobs[k].priority <= 0 && QueueOf(db, k.queue).paused
    ensures var db' := Step(db, OpRetry(k, t, true));
      && k in db'.jobs && db'.jobs[k].state == Paused && db'.jobs[k].waitSeq == Some(0)
      && (InFront(db', k) <==> forall x | PausedWithSeq(db, k.queue, x) :: db.jobs[x].waitSeq.value > 0)
      && (SharesZero(db', k) <==> exists x :: PausedWithSeq(db, k.queue, x) && db.jobs[x].waitSeq == Some(0))
  {
    hide PromoteDue, Calm, InPlace, PeersDistinct, RetryRow, PausedWithSeq, InFront, SharesZero, CalmRow, Step;
    var q := k.queue;
    var db1 := PromoteDue(db, q);
    var db' := RetryRow(db1, k, true);
    assert Step(db, OpRetry(k, t, true)) == db' by { RetryStep(db, k, t); }
    InPlaceAt(db, k);
    PromoteDueCalm(db, q);
    assert k !in Due(db, q);
    NotItself(db, k);
    CalmQueue(db, db1, q);
    RetryRowUnderPause(db1, k) by { CalmInPlace(db, db1); PlacedAll(db1); }
    forall x | x in db'.jobs && x != k && x.queue == q ensures ListedAs(db, db', q, x) { PromotedList(db, q, x); }
    ZeroInList(db, db', k);
  }

  lemma RetryStep(db: Db, k: Key, t: Token)
    requires HeldBy(db, k, t)
    ensures Step(db, OpRetry(k, t, true)) == RetryRow(PromoteDue(db, k.queue), k, true)
  {
    hide PromoteDue, RetryRow;
  }

  lemma NotItself(db: Db, k: Key)
    requires k in db.jobs && db.jobs[k].state == Active
    ensures !PausedWithSeq(db, k.queue, k)
  {}

  lemma InsertLifoFirst(db: Db, r: Request, key: Key)
    requires r.kind == Standard && r.payload.opts.lifo && key.queue in db.queues && key !in db.jobs
    ensures InFront(Insert(db, r, key).0, key)
  {
    hide InsertRow, Link, ClearStale, InFront;
    var db1 := if r.dedup.Some? then ClearStale(db, r.queue, r.dedup.value) else db;
    if r.dedup.Some? { ClearStaleGentle(db, r.queue, r.dedup.value); }
    var db2 := InsertRow(db1, key, r);
    InsertRowGains(db1, key, r);
    RowLifoFirst(db1, key, r);
    var db3 := HoldDedup(db2, r, key.id);
    if r.parent.Some? { LinkKeepsParked(db3, r.parent.value, key); }
    SameFront(db2, Insert(db, r, key).0, key);
  }

  lemma SameFront(db: Db, db': Db, k: Key)
    requires db'.jobs == db.jobs && InFront(db, k)
    ensures InFront(db', k)
  {}

  lemma RowLifoFirst(db: Db, k: Key, r: Request)
    requires r.kind == Standard && r.payload.opts.lifo
    ensures InFront(InsertRow(db, k, r), k)
  {
    hide WaitSeqs, Least;
    var db1 := db.(nextPk := db.nextPk + 1);
    var n := QueueOf(db, k.queue).waitNum + 1;
    var j := InsertRow(db, k, r).jobs[k];
    BelowLeastIsInFront(db1, k, j, {Wait, Paused}, None, n);
    assert InsertRow(db, k, r).jobs == Put(db1, k, j).jobs;
  }

  /** A LIFO add that brings a new row puts it in front of its list. */
  lemma LifoAddFirst(db: Db, r: Request, k: Key)
    requires r.kind == Standard && r.payload.opts.lifo && k !in db.jobs && k in Add(db, r).0.jobs
    ensures InFront(Add(db, r).0, k)
  {
    hide Insert, Replace, AddExisting, InFront;
    if r.queue in db.queues {
      var q := db.queues[r.queue];
      var key := Key(r.queue, if r.custom.Some? then r.custom.value else q.jobNum + 1);
      var db1 := if r.custom.Some? then db else PutQueue(db, r.queue, q.(jobNum := q.jobNum + 1));
      if r.parent.Some? && r.parent.value !in db1.jobs {
      } else if r.custom.Some? && key in db1.jobs {
        ExistingKeys(db1, r, key);
      } else if Suppressed(db1, r) {
      } else if Replaces(r) {
        ReplaceLifoFirst(db1, r, key, k);
      } else {
        InsertNewRow(db1, r, key, k) by { hide *; }
        InsertLifoFirst(db1, r, key);
      }
    }
  }

  lemma ReplaceLifoFirst(db: Db, r: Request, key: Key, k: Key)
    requires r.kind == Standard && r.payload.opts.lifo && Replaces(r)
    requires key.queue in db.queues && k !in db.jobs && k in Replace(db, r, key).0.jobs
    ensures InFront(Replace(db, r, key).0, k)
  {
    hide Insert, InFront;
    var dk := DedupKey(r.queue, r.dedup.value);
    if dk !in db.dedups {
      InsertNewRow(db, r, key, k) by { hide *; }
      InsertLifoFirst(db, r, key);
    } else {
      var h := Key(r.queue, db.dedups[dk].job);
      if h in db.jobs && db.jobs[h].state in Replaceable(r.kind) {
        var db1 := DeleteDedups(DeleteJobs(db, {h}), {dk});
        InsertNewRow(db1, r, key, k);
        InsertLifoFirst(db1, r, key);
      }
    }
  }
}
