/** No delayed job before its time: a row that sleeps until some time goes on sleeping through every
    step, unless it is woken by name. */
module DueTimes {
  import opened Rows
  import opened Ordering
  import opened Tables
  import opened Linking
  import opened Adding
  import opened Claiming
  import opened Ending
  import opened Managing
  import opened Flows
  import opened Machine
  import opened Frames
  import opened Lives
  import opened Waiting
  import opened Trees
  import opened Limits
  import opened Picking
  import opened Inserting

  /** The row of primary key `pk`, while it is there, is delayed until `at`. */
  ghost predicate Sleeps(db: Db, k: Key, pk: nat, at: Millis) {
    pk < db.nextPk
    && (k in db.jobs && db.jobs[k].pk == pk ==> db.jobs[k].state == Delayed && db.jobs[k].processAt == Some(at))
  }

  /** Row `s` is rewritten, and it is not a delayed one. */
  lemma OtherSleeps(db: Db, db': Db, s: Key, k: Key, pk: nat, at: Millis)
    requires Sleeps(db, k, pk, at) && db'.nextPk == db.nextPk && s in db'.jobs && db'.jobs == db.jobs[s := db'.jobs[s]]
    requires s in db.jobs && db'.jobs[s].pk == db.jobs[s].pk && db.jobs[s].state != Delayed
    ensures Sleeps(db', k, pk, at)
  {}

  // ---------------------------------------------------------------- links and parents

  lemma ReleaseSleeps(db: Db, p: Key, k: Key, pk: nat, at: Millis)
    requires p in db.jobs && Sleeps(db, k, pk, at)
    ensures Sleeps(ReleaseParent(db, p), k, pk, at)
  {
    hide ReleaseParent;
    ReleaseParentShape(db, p);
  }

  lemma LinkSleeps(db: Db, p: Key, c: Key, k: Key, pk: nat, at: Millis)
    requires Sleeps(db, k, pk, at)
    ensures Sleeps(Link(db, p, c), k, pk, at)
  {
    hide ReleaseParent;
    if p in db.jobs && c in db.jobs { ReleaseSleeps(AddEdge(db, p, c, LinkStatus(db.jobs[c])), p, k, pk, at); }
  }

  lemma {:induction false} LinkAllSleeps(db: Db, p: Key, cs: seq<Key>, k: Key, pk: nat, at: Millis)
    requires Sleeps(db, k, pk, at)
    ensures Sleeps(LinkAll(db, p, cs), k, pk, at)
  {
    hide Link, Sleeps;
    if cs != [] {
      LinkAllSleeps(db, p, cs[..|cs| - 1], k, pk, at);
      LinkSleeps(LinkAll(db, p, cs[..|cs| - 1]), p, cs[|cs| - 1], k, pk, at);
    }
  }

  lemma {:induction false} SettleSleeps(db: Db, ps: seq<Key>, cpof: bool, k: Key, pk: nat, at: Millis)
    requires Sleeps(db, k, pk, at)
    ensures Sleeps(SettleParents(db, ps, cpof), k, pk, at)
  {
    hide ReleaseParent, HasBlockingEdge, Sleeps;
    if ps != [] {
      var db1, p := SettleParents(db, ps[..|ps| - 1], cpof), ps[|ps| - 1];
      SettleSleeps(db, ps[..|ps| - 1], cpof, k, pk, at);
      if p in db1.jobs { ReleaseSleeps(db1, p, k, pk, at); }
    }
  }

  lemma ForceSleeps(db: Db, p: Key, k: Key, pk: nat, at: Millis)
    requires p in db.jobs && p != k && Sleeps(db, k, pk, at)
    ensures Sleeps(ForceParent(db, p), k, pk, at)
  {}

  lemma {:induction false} ForceAllSleeps(db: Db, ps: seq<Key>, k: Key, pk: nat, at: Millis)
    requires Sleeps(db, k, pk, at) && k !in ps
    ensures Sleeps(ForceParents(db, ps), k, pk, at)
  {
    hide ForceParent, Sleeps;
    if ps != [] {
      var db1, p := ForceParents(db, ps[..|ps| - 1]), ps[|ps| - 1];
      ForceAllSleeps(db, ps[..|ps| - 1], k, pk, at);
      if p in db1.jobs { ForceSleeps(db1, p, k, pk, at); }
    }
  }

  // ---------------------------------------------------------------- adds

  lemma InsertRowSleeps(db: Db, key: Key, r: Request, k: Key, pk: nat, at: Millis)
    requires key !in db.jobs && Sleeps(db, k, pk, at)
    ensures Sleeps(InsertRow(db, key, r), k, pk, at)
  {
    hide Least, WaitSeqs;
  }

  lemma InsertSleeps(db: Db, r: Request, key: Key, k: Key, pk: nat, at: Millis)
    requires Sleeps(db, k, pk, at)
    ensures Sleeps(Insert(db, r, key).0, k, pk, at)
  {
    hide InsertRow, Link, InsertConflict;
    var db1 := if r.dedup.Some? then ClearStale(db, r.queue, r.dedup.value) else db;
    assert Sleeps(db1, k, pk, at);
    if key in db1.jobs {
      ConflictSleeps(db1, key, r, k, pk, at);
    } else {
      InsertRowSleeps(db1, key, r, k, pk, at);
      var db3 := HoldDedup(InsertRow(db1, key, r), r, key.id);
      assert Sleeps(db3, k, pk, at);
      if r.parent.Some? { LinkSleeps(db3, r.parent.value, key, k, pk, at); }
    }
  }

  lemma ConflictSleeps(db: Db, key: Key, r: Request, k: Key, pk: nat, at: Millis)
    requires Sleeps(db, k, pk, at)
    ensures Sleeps(InsertConflict(db, key, r), k, pk, at)
  {
    hide WaitSeqs;
  }

  lemma ReplaceSleeps(db: Db, r: Request, key: Key, k: Key, pk: nat, at: Millis)
    requires Replaces(r) && Sleeps(db, k, pk, at)
    ensures Sleeps(Replace(db, r, key).0, k, pk, at)
  {
    hide Insert;
    InsertSleeps(db, r, key, k, pk, at);
    var dk := DedupKey(r.queue, r.dedup.value);
    if dk in db.dedups {
      InsertSleeps(DeleteDedups(DeleteJobs(db, {Key(r.queue, db.dedups[dk].job)}), {dk}), r, key, k, pk, at);
    }
  }

  lemma AddSleeps(db: Db, r: Request, k: Key, pk: nat, at: Millis)
    requires Sleeps(db, k, pk, at)
    ensures Sleeps(Add(db, r).0, k, pk, at)
  {
    hide Insert, Replace, Link;
    if r.queue in db.queues {
      var q := db.queues[r.queue];
      var key := AddKey(db, r);
      var db1 := if r.custom.Some? then db else PutQueue(db, r.queue, q.(jobNum := q.jobNum + 1));
      assert Sleeps(db1, k, pk, at);
      InsertSleeps(db1, r, key, k, pk, at);
      if Replaces(r) { ReplaceSleeps(db1, r, key, k, pk, at); }
      if r.parent.Some? { LinkSleeps(db1, r.parent.value, key, k, pk, at); }
    }
  }

  lemma {:induction false} NodeSleeps(db: Db, n: Node, parent: Option<Key>, k: Key, pk: nat, at: Millis)
    requires Sleeps(db, k, pk, at)
    ensures AddNode(db, n, parent).Built? ==> Sleeps(AddNode(db, n, parent).db, k, pk, at)
    decreases n, 0
  {
    hide Add, LinkAll, Sleeps;
    var db0 := EnsureQueue(db, n.queue);
    assert Sleeps(db0, k, pk, at) by { SameRowsSleep(db, db0, k, pk, at); }
    var (db1, r) := Add(db0, NodeRequest(n, parent));
    AddSleeps(db0, NodeRequest(n, parent), k, pk, at);
    if r.Added? && n.children != [] && r.id == n.id {
      BelowSleeps(db1, n.children, KeyOf(n), k, pk, at);
      var b := AddChildren(db1, n.children, KeyOf(n));
      if b.BuiltAll? { LinkAllSleeps(b.db, KeyOf(n), b.ids, k, pk, at); }
    }
  }

  lemma SameRowsSleep(db: Db, db': Db, k: Key, pk: nat, at: Millis)
    requires Sleeps(db, k, pk, at) && db'.jobs == db.jobs && db'.nextPk == db.nextPk
    ensures Sleeps(db', k, pk, at)
  {}

  lemma {:induction false} BelowSleeps(db: Db, ns: seq<Node>, p: Key, k: Key, pk: nat, at: Millis)
    requires Sleeps(db, k, pk, at)
    ensures AddChildren(db, ns, p).BuiltAll? ==> Sleeps(AddChildren(db, ns, p).db, k, pk, at)
    decreases ns, 1
  {
    hide AddNode, Sleeps;
    if ns != [] {
      NodeSleeps(db, ns[0], Some(p), k, pk, at);
      var b := AddNode(db, ns[0], Some(p));
      if b.Built? { BelowSleeps(b.db, ns[1..], p, k, pk, at); }
    }
  }

  // ---------------------------------------------------------------- the other steps

  lemma DueSleeps(db: Db, q: QueueId, k: Key, pk: nat, at: Millis)
    requires Sleeps(db, k, pk, at) && db.now < at
    ensures Sleeps(PromoteDue(db, q), k, pk, at)
  {
    hide PromoteDue;
    if k in db.jobs { PromotesInDueOrder(db, q, k, k); } else { DueKeys(db, q); }
  }

  lemma DueKeys(db: Db, q: QueueId)
    ensures PromoteDue(db, q).jobs.Keys == db.jobs.Keys && PromoteDue(db, q).nextPk == db.nextPk
  {
    hide PromoteDue, Calm, CalmRow;
    PromoteDueCalm(db, q);
  }

  lemma ClaimSleeps(db: Db, a: ClaimArgs, k: Key, pk: nat, at: Millis)
    requires Sleeps(db, k, pk, at) && db.now < at
    ensures Sleeps(Claim(db, a), k, pk, at)
  {
    hide PromoteDue, GatesOpen;
    DueSleeps(DropExpiredWindow(db, a.queue), a.queue, k, pk, at);
    var db1 := Prepared(db, a.queue);
    if Takes(db, a) { OtherSleeps(db1, Activate(db1, a), a.pick, k, pk, at); }
  }

  lemma RetrySleeps(db: Db, s: Key, t: Token, lifo: bool, k: Key, pk: nat, at: Millis)
    requires Sleeps(db, k, pk, at) && db.now < at
    ensures Sleeps(Retry(db, s, t, lifo).0, k, pk, at)
  {
    hide PromoteDue, RetryRow;
    if HeldBy(db, s, t) {
      var db1 := PromoteDue(db, s.queue);
      DueSleeps(db, s.queue, k, pk, at);
      PromotesInDueOrder(db, s.queue, s, s);
      RetryRowShape(db1, s, lifo);
      OtherSleeps(db1, RetryRow(db1, s, lifo), s, k, pk, at);
    }
  }

  lemma RequeueSleeps(db: Db, s: Key, k: Key, pk: nat, at: Millis)
    requires Sleeps(db, k, pk, at)
    ensures Sleeps(Requeue(db, s), k, pk, at)
  {
    hide Add;
    if d :| IsFirstStash(db, s, d) && Requeue(db, s) == Add(DeleteDedups(db, {d}), StashRequest(db, d)).0 {
      AddSleeps(DeleteDedups(db, {d}), StashRequest(db, d), k, pk, at);
    }
  }

  /** What is stashed has no parent: no edge comes with it. */
  lemma RequeueParents(db: Db, s: Key, c: Key)
    ensures ParentsOf(Requeue(db, s), c) <= ParentsOf(db, c)
  {
    hide Add;
    if d :| IsFirstStash(db, s, d) && Requeue(db, s) == Add(DeleteDedups(db, {d}), StashRequest(db, d)).0 {
      OrphanParents(DeleteDedups(db, {d}), StashRequest(db, d), c);
    }
  }

  lemma OrphanParents(db: Db, r: Request, c: Key)
    requires r.parent.None?
    ensures ParentsOf(Add(db, r).0, c) <= ParentsOf(db, c)
  {
    hide InsertRow, InsertConflict;
    forall e: Db, key: Key ensures Insert(e, r, key).0.edges == e.edges { OrphanEdges(e, r, key); }
  }

  lemma OrphanEdges(db: Db, r: Request, key: Key)
    requires r.parent.None?
    ensures Insert(db, r, key).0.edges == db.edges
  {
    hide InsertRow, InsertConflict;
    var db1 := if r.dedup.Some? then ClearStale(db, r.queue, r.dedup.value) else db;
    InsertRowEdges(db1, key, r);
    ConflictKeepsRows(db1, key, r);
  }

  lemma TrimSleeps(db: Db, a: FinishArgs, k: Key, pk: nat, at: Millis)
    requires Sleeps(db, k, pk, at)
    ensures Sleeps(Trim(db, a), k, pk, at)
  {
    hide Doomed;
  }

  /** The finish fails the job under `fpof` while row `k` is a parent of it. */
  ghost predicate Forces(db: Db, a: FinishArgs, k: Key) {
    && !a.ok && a.key in db.jobs && db.jobs[a.key].payload.opts.fpof
    && exists i :: i in db.edges && db.edges[i].parent == k && db.edges[i].linked && db.edges[i].child == a.key
  }

  lemma NotifySleeps(db: Db, a: FinishArgs, opts: JobOpts, k: Key, pk: nat, at: Millis)
    requires Sleeps(db, k, pk, at) && (!a.ok && opts.fpof ==> k !in ParentsOf(db, a.key))
    ensures Sleeps(NotifyParents(db, a, opts), k, pk, at)
  {
    hide ForceParents, SettleParents, Sorted;
    var ps := Sorted(ByPk, db.jobs, ParentsOf(db, a.key) * db.jobs.Keys);
    var db1 := ResolveEdges(db, a.key, opts, a.ok, a.keep == Some(0));
    assert Sleeps(db1, k, pk, at);
    if !a.ok && opts.fpof { ForceAllSleeps(db1, ps, k, pk, at); }
    SettleSleeps(if !a.ok && opts.fpof then ForceParents(db1, ps) else db1, ps, !a.ok && opts.cpof, k, pk, at);
  }

  lemma FinishSleeps(db: Db, a: FinishArgs, k: Key, pk: nat, at: Millis)
    requires Sleeps(db, k, pk, at) && LeasesSound(db) && !Forces(db, a, k)
    ensures Sleeps(Finish(db, a).0, k, pk, at)
  {
    hide Requeue, NotifyParents, Trim, Sleeps;
    if Finishes(db, a) {
      var j := db.jobs[a.key];
      assert Sound(LifeOf(j)) && j.state == Active;
      var db1 := Put(db, a.key, EndedRow(j, a.ok, db.now));
      OtherSleeps(db, db1, a.key, k, pk, at);
      RequeueSleeps(db1, a.key, k, pk, at);
      RequeueParents(db1, a.key, a.key);
      assert !a.ok && j.payload.opts.fpof ==> k !in ParentsOf(db, a.key);
      var db2 := Requeue(db1, a.key);
      NotifySleeps(db2, a, j.payload.opts, k, pk, at);
      TrimSleeps(NotifyParents(db2, a, j.payload.opts), a, k, pk, at);
    }
  }

  lemma MoveBatchSleeps(db: Db, q: QueueId, from: JobState, n: nat, upTo: Millis, k: Key, pk: nat, at: Millis)
    requires Sleeps(db, k, pk, at) && !(from == Delayed && q == k.queue && upTo >= at)
    ensures Sleeps(MoveBatch(db, q, from, n, upTo), k, pk, at)
  {
    hide MoveSeq, Sorted;
    var st := SourceState(from);
    var ks := FirstN(Sorted(BatchOrder(st), db.jobs, Movable(db, q, st, upTo)), n);
    MovedListed(db, q, st, n, upTo);
    MoveSeqRows(db, ks, st);
    if k in db.jobs && db.jobs[k].pk != pk && k in ks { assert MovedRow(db.jobs[k], MoveSeq(db, ks, st).jobs[k]); }
  }

  /** A call a worker makes under a lease other than finish and retry, or one on a single row that is not
      asleep. */
  lemma RowSleeps(db: Db, op: Op, k: Key, pk: nat, at: Millis)
    requires Sleeps(db, k, pk, at)
    requires op.OpDelay? || op.OpToChildren? || op.OpRelease? || op.OpExtend? || op.OpReprocess? || op.OpCutEdge?
    ensures Sleeps(Step(db, op), k, pk, at)
  {
    hide HasEdge, HasPendingChild, Linked, Least, WaitSeqs, PrioSeqs;
    if op.OpRelease? && HeldBy(db, op.key, op.token) {
      hide Release;
      ReleaseShape(db, op.key, op.token);
      OtherSleeps(db, Step(db, op), op.key, k, pk, at);
    }
  }

  lemma SetSleeps(db: Db, op: Op, k: Key, pk: nat, at: Millis)
    requires Sleeps(db, k, pk, at)
    requires op.OpSweep? || op.OpExtendMany? || op.OpPause?
    ensures Sleeps(Step(db, op), k, pk, at)
  {
    hide SweepNumber;
  }

  lemma OtherRowSleeps(db: Db, op: Op, k: Key, pk: nat, at: Millis)
    requires Sleeps(db, k, pk, at)
    requires op.OpChangePriority? || (op.OpPromote? && op.key != k) || op.OpQueue? || op.OpTick?
    ensures Sleeps(Step(db, op), k, pk, at)
  {
    hide Least, WaitSeqs, PrioSeqs;
  }

  /** The steps that wake row `k` before its time: a promotion by hand, a batch move of the due times up
      to its own, and a failing child that forces its parents. */
  ghost predicate Wakes(db: Db, op: Op, k: Key, at: Millis) {
    match op
    case OpPromote(x) => x == k
    case OpMoveBatch(q, from, _, upTo) => from == Delayed && q == k.queue && upTo >= at
    case OpFinish(a) => Forces(db, a, k)
    case _ => false
  }

  lemma StepSleeps(db: Db, op: Op, k: Key, pk: nat, at: Millis)
    requires Sleeps(db, k, pk, at) && LeasesSound(db) && db.now < at && !Wakes(db, op, k, at)
    ensures Sleeps(Step(db, op), k, pk, at)
  {
    hide Sleeps, AddNode, Add, Finish, Claim, Retry, MoveBatch, Forces;
    match op {
      case OpAdd(r) => AddSleeps(db, r, k, pk, at);
      case OpFlow(n, parent) => NodeSleeps(db, n, parent, k, pk, at);
      case OpClaim(a) => ClaimSleeps(db, a, k, pk, at);
      case OpFinish(a) => FinishSleeps(db, a, k, pk, at);
      case OpRetry(s, t, lifo) => RetrySleeps(db, s, t, lifo, k, pk, at);
      case OpMoveBatch(q, f, n, t) => MoveBatchSleeps(db, q, f, n, t, k, pk, at);
      case _ =>
        if op.OpDelay? || op.OpToChildren? || op.OpRelease? || op.OpExtend? || op.OpReprocess? || op.OpCutEdge? {
          RowSleeps(db, op, k, pk, at);
        } else if op.OpSweep? || op.OpExtendMany? || op.OpPause? {
          SetSleeps(db, op, k, pk, at);
        } else {
          OtherRowSleeps(db, op, k, pk, at);
        }
    }
  }

  // ---------------------------------------------------------------- runs

  ghost predicate NeverWoken(db: Db, ops: seq<Op>, k: Key, at: Millis) {
    forall i | 0 <= i < |ops| :: !Wakes(At(db, ops, i), ops[i], k, at)
  }

  lemma NeverWokenFront(db: Db, ops: seq<Op>, k: Key, at: Millis)
    requires NeverWoken(db, ops, k, at) && ops != []
    ensures var front := ops[..|ops| - 1];
      NeverWoken(db, front, k, at) && !Wakes(Run(db, front), ops[|ops| - 1], k, at)
  {
    var front := ops[..|ops| - 1];
    forall i | 0 <= i < |front| ensures !Wakes(At(db, front, i), front[i], k, at) {
      assert front[..i] == ops[..i];
    }
    assert At(db, ops, |ops| - 1) == Run(db, front);
  }

  lemma {:induction false} RunSleeps(db: Db, ops: seq<Op>, k: Key, pk: nat, at: Millis)
    requires Sleeps(db, k, pk, at) && LeasesSound(db) && NeverWoken(db, ops, k, at)
    ensures Sleeps(Run(db, ops), k, pk, at) || Run(db, ops).now >= at
  {
    if ops != [] {
      hide Step, Sleeps, LeasesSound, NeverWoken, Wakes;
      var front, op := ops[..|ops| - 1], ops[|ops| - 1];
      NeverWokenFront(db, ops, k, at);
      RunSleeps(db, front, k, pk, at);
      RunSound(db, front);
      StepNow(Run(db, front), op);
      if Run(db, front).now < at { StepSleeps(Run(db, front), op, k, pk, at); }
    }
  }

  lemma SleeperNotTaken(db: Db, a: ClaimArgs, pk: nat, at: Millis)
    requires Takes(db, a) && Sleeps(db, a.pick, pk, at) && a.pick in db.jobs && db.jobs[a.pick].pk == pk
    ensures db.now >= at
  {
    hide Prepared, GatesOpen;
    PreparedRow(db, a.queue, a.pick);
  }

  /** A delayed job is claimed only when its time has come, in every run in which nothing wakes it before:
      no promotion of it by hand, no batch move of due times up to its own, no failing `fpof` child. */
  lemma NotBeforeDue(db: Db, ops: seq<Op>, k: Key, at: Millis, a: ClaimArgs)
    requires LeasesSound(db) && k in db.jobs && db.jobs[k].pk < db.nextPk
    requires db.jobs[k].state == Delayed && db.jobs[k].processAt == Some(at) && NeverWoken(db, ops, k, at)
    requires Takes(Run(db, ops), a) && a.pick == k
    requires k in Run(db, ops).jobs && Run(db, ops).jobs[k].pk == db.jobs[k].pk
    ensures Run(db, ops).now >= at
  {
    hide LeasesSound, NeverWoken, Run, Takes;
    RunSleeps(db, ops, k, db.jobs[k].pk, at);
    if Run(db, ops).now < at { SleeperNotTaken(Run(db, ops), a, db.jobs[k].pk, at); }
  }

  /** A job added with a delay is claimed no earlier than its delay after its timestamp. */
  lemma AddedNotBeforeDue(db: Db, r: Request, ops: seq<Op>, k: Key, a: ClaimArgs)
    requires LeasesSound(db) && r.kind == Later && k !in db.jobs && k in Step(db, OpAdd(r)).jobs
    requires var db1 := Step(db, OpAdd(r)); var at := r.timestamp + r.payload.opts.delay;
      NeverWoken(db1, ops, k, at) && Takes(Run(db1, ops), a) && a.pick == k
      && k in Run(db1, ops).jobs && Run(db1, ops).jobs[k].pk == db1.jobs[k].pk
    ensures Run(Step(db, OpAdd(r)), ops).now >= r.timestamp + r.payload.opts.delay
  {
    hide LeasesSound, NeverWoken, Run, Takes, Step;
    AddWrites(db, r, k);
    StepSound(db, OpAdd(r));
    NewPk(db, r, k);
    NotBeforeDue(Step(db, OpAdd(r)), ops, k, r.timestamp + r.payload.opts.delay, a);
  }

  lemma NewPk(db: Db, r: Request, k: Key)
    requires k !in db.jobs && k in Step(db, OpAdd(r)).jobs
    ensures Step(db, OpAdd(r)).jobs[k].pk < Step(db, OpAdd(r)).nextPk
  {
    hide Add, StaysListed;
    AddGentle(db, r);
    assert KeptOrNew(db, Add(db, r).0, k);
  }

  /** What a delay writes: due at the time given, a delay not below 0, no lease, and an attempt more
      exactly when a failure reason comes with it. */
  lemma DelayWrites(db: Db, k: Key, t: Token, at: Millis, ms: int, failed: bool)
    requires Delay(db, k, t, at, ms, failed).1 == Ok
    ensures var db' := Step(db, OpDelay(k, t, at, ms, failed));
      && k in db.jobs && k in db'.jobs && db' == db.(jobs := db.jobs[k := db'.jobs[k]])
      && db'.jobs[k] == db.jobs[k].(state := Delayed, processAt := Some(at), delayMs := db'.jobs[k].delayMs,
           lockToken := None, lockExpires := None, attemptsMade := db'.jobs[k].attemptsMade)
      && (ms >= 0 ==> db'.jobs[k].delayMs == ms) && (ms < 0 ==> db'.jobs[k].delayMs == 0)
      && db'.jobs[k].attemptsMade - db.jobs[k].attemptsMade == (if failed then 1 else 0)
  {}

  /** A job delayed until some time is not claimed before it. */
  lemma DelayedNotBeforeDue(db: Db, k: Key, t: Token, at: Millis, ms: int, failed: bool, ops: seq<Op>, a: ClaimArgs)
    requires LeasesSound(db) && PksBounded(db) && Delay(db, k, t, at, ms, failed).1 == Ok
    requires var db1 := Step(db, OpDelay(k, t, at, ms, failed));
      NeverWoken(db1, ops, k, at) && Takes(Run(db1, ops), a) && a.pick == k
      && k in Run(db1, ops).jobs && Run(db1, ops).jobs[k].pk == db.jobs[k].pk
    ensures Run(Step(db, OpDelay(k, t, at, ms, failed)), ops).now >= at
  {
    hide LeasesSound, NeverWoken, Run, Takes, Step;
    DelayWrites(db, k, t, at, ms, failed);
    StepSound(db, OpDelay(k, t, at, ms, failed));
    NotBeforeDue(Step(db, OpDelay(k, t, at, ms, failed)), ops, k, at, a);
  }
}
