/** Deduplication rows and the jobs that hold them: one unfinished job per id, and the stash of
    `keepLastIfActive`. */
module KeepLast {
  import opened Rows
  import opened Ordering
  import opened Tables
  import opened Places
  import opened Linking
  import opened Adding
  import opened Claiming
  import opened Ending
  import opened Managing
  import opened Flows
  import opened Machine
  import opened Frames
  import opened Lives
  import opened Waiting
  import opened Routing
  import opened Releasing
  import opened Trees

  /** No time to live and no `replace`. */
  predicate PlainDedup(p: Payload) {
    p.opts.dedup.Some? ==> p.opts.dedup.value.ttl <= 0 && !p.opts.dedup.value.replace
  }

  ghost predicate Held(db: Db, k: Key, d: DedupId) {
    var dk := DedupKey(k.queue, d);
    dk in db.dedups && db.dedups[dk].job == k.id
  }

  ghost predicate RowsHeld(db: Db) {
    forall k | k in db.jobs && !Finished(db.jobs[k]) && db.jobs[k].dedup.Some? :: Held(db, k, db.jobs[k].dedup.value)
  }

  /** Every unfinished job with a deduplication id is the one its row names. */
  ghost predicate DedupInv(db: Db) {
    && (forall d | d in db.dedups ::
      db.dedups[d].expires.None? && (db.dedups[d].pending.Some? ==> PlainDedup(db.dedups[d].pending.value)))
    && RowsHeld(db)
  }

  /** Deduplication rows stay; jobs keep their ids, and none comes back from its end. */
  ghost predicate TagsKept(db: Db, db': Db) {
    && db'.dedups == db.dedups
    && forall k | k in db'.jobs :: k in db.jobs && SameTag(db.jobs[k], db'.jobs[k])
  }

  predicate SameTag(j: Job, j': Job) {
    j'.dedup == j.dedup && (Finished(j) ==> Finished(j'))
  }

  lemma TagsInv(db: Db, db': Db)
    requires TagsKept(db, db') && DedupInv(db)
    ensures DedupInv(db')
  {}

  lemma TagsTrans(a: Db, b: Db, c: Db)
    requires TagsKept(a, b) && TagsKept(b, c)
    ensures TagsKept(a, c)
  {}

  lemma OneRowTags(db: Db, db': Db, k: Key)
    requires k in db.jobs && OneRow(db, db', k) && SameTag(db.jobs[k], db'.jobs[k])
    ensures TagsKept(db, db')
  {}

  // ---------------------------------------------------------------- steps other than adds and ends

  lemma {:induction false} PromoteSeqTags(db: Db, ks: seq<Key>)
    requires AllDelayed(db, ks)
    ensures TagsKept(db, PromoteSeq(db, ks))
  {
    if ks != [] {
      hide Calm, PromoteOne, PromoteSeq, CalmRow, AllDelayed, TagsKept;
      var front, k := ks[..|ks| - 1], ks[|ks| - 1];
      var db1 := PromoteSeq(db, front);
      assert ks == front + [k];
      AllDelayedSnoc(db, front, k);
      PromoteSeqTags(db, front);
      PromoteSeqCalm(db, front);
      PromoteSeqSnoc(db, front, k);
      PromotedOneTags(db1, k);
      TagsTrans(db, db1, PromoteSeq(db, ks));
    }
  }

  lemma PromotedOneTags(db: Db, k: Key)
    requires k in db.jobs && db.jobs[k].state == Delayed
    ensures TagsKept(db, PromoteOne(db, k))
  {
    hide Calm, PromoteOne, CalmRow, TagsKept;
    PromoteOneCalm(db, k);
    PromotedUnfinished(db, k);
    OneRowTags(db, PromoteOne(db, k), k);
  }

  lemma PromotedUnfinished(db: Db, k: Key)
    requires k in db.jobs && db.jobs[k].state == Delayed
    ensures SameTag(db.jobs[k], PromoteOne(db, k).jobs[k])
  {}

  lemma PromoteDueTags(db: Db, q: QueueId)
    ensures TagsKept(db, PromoteDue(db, q))
  {
    DueListed(db, q);
    PromoteSeqTags(db, Sorted(ByDue, db.jobs, Due(db, q)));
  }

  lemma ClaimTags(db: Db, a: ClaimArgs)
    ensures TagsKept(db, Claim(db, a))
  {
    hide PromoteDue, GatesOpen;
    if a.queue in db.queues { PromoteDueTags(DropExpiredWindow(db, a.queue), a.queue); }
  }

  lemma RetryTags(db: Db, k: Key, t: Token, lifo: bool)
    ensures TagsKept(db, Retry(db, k, t, lifo).0)
  {
    hide PromoteDue, RetryRow;
    if HeldBy(db, k, t) {
      var db1 := PromoteDue(db, k.queue);
      PromoteDueTags(db, k.queue);
      PromoteDueCalm(db, k.queue);
      RetryRowShape(db1, k, lifo);
      OneRowTags(db1, RetryRow(db1, k, lifo), k);
    }
  }

  lemma ReleaseTags(db: Db, k: Key, t: Token)
    ensures TagsKept(db, Release(db, k, t).0)
  {
    if HeldBy(db, k, t) {
      hide Release;
      ReleaseShape(db, k, t);
      OneRowTags(db, Release(db, k, t).0, k);
    } else {
      assert Release(db, k, t).0 == db;
    }
  }

  lemma ChangePriorityTags(db: Db, k: Key, p: int, h: bool)
    ensures TagsKept(db, ChangePriority(db, k, p, h).0)
  {
    if k in db.jobs {
      hide ChangePriority;
      ChangePriorityShape(db, k, p, h);
      OneRowTags(db, ChangePriority(db, k, p, h).0, k);
    }
  }

  lemma SweepTags(db: Db, q: QueueId, m: int)
    ensures TagsKept(db, Sweep(db, q, m))
  {
    hide SweepNumber;
  }

  lemma {:induction false} MoveSeqTags(db: Db, ks: seq<Key>)
    requires Distinct(ks) && forall i | 0 <= i < |ks| :: ks[i] in db.jobs && !Finished(db.jobs[ks[i]])
    ensures TagsKept(db, MoveSeq(db, ks, Delayed))
  {
    if ks != [] {
      hide MoveOne;
      var front, k := ks[..|ks| - 1], ks[|ks| - 1];
      assert ks == front + [k] && k !in front;
      MoveSeqTags(db, front);
      MoveSeqRows(db, front, Delayed);
      MoveOneShape(MoveSeq(db, front, Delayed), k, Delayed);
      OneRowTags(MoveSeq(db, front, Delayed), MoveSeq(db, ks, Delayed), k);
    }
  }

  lemma MoveBatchTags(db: Db, q: QueueId, n: nat, t: Millis)
    ensures TagsKept(db, MoveBatch(db, q, Delayed, n, t))
  {
    hide Sorted, FirstN, MoveSeq;
    MovedListed(db, q, Delayed, n, t);
    MoveSeqTags(db, FirstN(Sorted(BatchOrder(Delayed), db.jobs, Movable(db, q, Delayed, t)), n));
  }

  lemma CutEdgeTags(db: Db, c: Key, p: Key)
    ensures TagsKept(db, CutEdge(db, c, p).0)
  {
    hide HasEdge, Linked;
  }

  lemma LeaseTags(db: Db, op: Op)
    requires op.OpDelay? || op.OpToChildren? || op.OpExtend? || op.OpExtendMany?
    ensures TagsKept(db, Step(db, op))
  {
    hide HasEdge, HasPendingChild, Renews;
  }

  lemma OtherTags(db: Db, op: Op)
    requires op.OpTick? || op.OpQueue? || op.OpPause? || op.OpPromote?
    ensures TagsKept(db, Step(db, op))
  {
    hide Promote, Pause;
    match op
    case OpPromote(k) => PromotesTags(db, k);
    case OpPause(q, p) => PauseTags(db, q, p);
    case _ =>
  }

  lemma PromotesTags(db: Db, k: Key)
    ensures TagsKept(db, Promote(db, k).0)
  {}

  lemma PauseTags(db: Db, q: QueueId, p: bool)
    ensures TagsKept(db, Pause(db, q, p))
  {}

  /** The steps that neither add, nor end, nor revive a job. */
  predicate TagOp(op: Op) {
    !op.OpAdd? && !op.OpFlow? && !op.OpFinish? && !op.OpReprocess? && (op.OpMoveBatch? ==> op.from == Delayed)
  }

  lemma StepTags(db: Db, op: Op)
    requires TagOp(op)
    ensures TagsKept(db, Step(db, op))
  {
    hide TagsKept, Claim, Retry, Release, ChangePriority, Sweep, MoveBatch, CutEdge;
    match op
    case OpClaim(a) => ClaimTags(db, a);
    case OpRetry(k, t, l) => RetryTags(db, k, t, l);
    case OpRelease(k, t) => ReleaseTags(db, k, t);
    case OpChangePriority(k, p, h) => ChangePriorityTags(db, k, p, h);
    case OpSweep(q, m) => SweepTags(db, q, m);
    case OpMoveBatch(q, f, n, t) => MoveBatchTags(db, q, n, t);
    case OpCutEdge(c, p) => CutEdgeTags(db, c, p);
    case OpTick(_) => OtherTags(db, op);
    case OpQueue(_) => OtherTags(db, op);
    case OpPause(_, _) => OtherTags(db, op);
    case OpPromote(_) => OtherTags(db, op);
    case _ => LeaseTags(db, op);
  }

  // ---------------------------------------------------------------- adds

  lemma LinkTags(db: Db, p: Key, c: Key)
    ensures TagsKept(db, Link(db, p, c))
  {
    if p in db.jobs && c in db.jobs { ReleaseTag(AddEdge(db, p, c, LinkStatus(db.jobs[c])), p); }
  }

  lemma ReleaseTag(db: Db, p: Key)
    requires p in db.jobs
    ensures TagsKept(db, ReleaseParent(db, p))
  {}

  lemma ExistingInv(db: Db, r: Request, k: Key)
    requires k in db.jobs
    ensures TagsKept(db, AddExisting(db, r, k).0)
  {
    hide Link;
    if r.parent.Some? { LinkTags(db, r.parent.value, k); }
  }

  lemma SuppressInv(db: Db, r: Request)
    requires DedupInv(db) && Suppressed(db, r) && PlainDedup(r.payload)
    ensures DedupInv(Suppress(db, r))
  {}

  /** When an add with id `d` is let through, nobody unfinished holds `d`. */
  lemma UnheldWhenAdmitted(db: Db, r: Request, k: Key)
    requires DedupInv(db) && r.dedup.Some? && PlainDedup(r.payload) && !Suppressed(db, r)
    requires k in db.jobs && k.queue == r.queue && db.jobs[k].dedup == r.dedup
    ensures Finished(db.jobs[k])
  {
    assert !Finished(db.jobs[k]) ==> Held(db, k, r.dedup.value);
  }

  lemma InsertRowTag(db: Db, k: Key, r: Request)
    requires k !in db.jobs && k.queue in db.queues
    ensures var j := InsertRow(db, k, r).jobs;
      k in j && j[k].dedup == r.dedup && j[k].payload == r.payload && Newborn(j[k]) && j[k].parent == r.parent
    ensures InsertRow(db, k, r).dedups == db.dedups
  {
    hide InsertStandard;
    if r.kind == Standard {
      var db1 := db.(nextPk := db.nextPk + 1);
      InsertStandardShape(db1, k, NewRow(db, r));
      InsertStandardDedups(db1, k, NewRow(db, r));
    }
  }

  lemma InsertStandardDedups(db: Db, k: Key, j: Job)
    ensures InsertStandard(db, k, j).dedups == db.dedups
  {}

  lemma InsertInv(db: Db, r: Request, k: Key)
    requires DedupInv(db) && PlainDedup(r.payload) && k.queue in db.queues && k.queue == r.queue
    requires r.dedup.Some? ==> !Suppressed(db, r)
    ensures DedupInv(Insert(db, r, k).0)
  {
    hide InsertRow, Link, InsertConflict, Suppressed;
    var db1 := if r.dedup.Some? then ClearStale(db, r.queue, r.dedup.value) else db;
    ClearedInv(db, r);
    if k in db1.jobs {
      ConflictTags(db1, k, r);
      TagsInv(db1, InsertConflict(db1, k, r));
    } else {
      assert db1.queues == db.queues;
      InsertRowGains(db1, k, r);
      InsertRowTag(db1, k, r);
      var db2 := InsertRow(db1, k, r);
      HeldInv(db1, db2, r, k);
      if r.parent.Some? {
        LinkTags(HoldDedup(db2, r, k.id), r.parent.value, k);
        TagsInv(HoldDedup(db2, r, k.id), Link(HoldDedup(db2, r, k.id), r.parent.value, k));
      }
    }
  }

  lemma ConflictTags(db: Db, k: Key, r: Request)
    ensures TagsKept(db, InsertConflict(db, k, r))
  {
    hide Least;
  }

  ghost predicate Unheld(db: Db, r: Request) {
    r.dedup.Some? ==>
      forall k | k in db.jobs && k.queue == r.queue && db.jobs[k].dedup == r.dedup :: Finished(db.jobs[k])
  }

  lemma ClearedInv(db: Db, r: Request)
    requires DedupInv(db) && PlainDedup(r.payload) && (r.dedup.Some? ==> !Suppressed(db, r))
    ensures var db1 := if r.dedup.Some? then ClearStale(db, r.queue, r.dedup.value) else db;
      DedupInv(db1) && Unheld(db1, r) && db1.queues == db.queues
  {
    hide Suppressed, LiveDedup;
    if r.dedup.Some? {
      forall k | k in db.jobs && k.queue == r.queue && db.jobs[k].dedup == r.dedup ensures Finished(db.jobs[k]) {
        UnheldWhenAdmitted(db, r, k);
      }
    }
  }

  lemma HeldInv(db: Db, db2: Db, r: Request, k: Key)
    requires DedupInv(db) && Unheld(db, r) && PlainDedup(r.payload) && k !in db.jobs && k.queue == r.queue
    requires db2.jobs.Keys == db.jobs.Keys + {k} && db2.jobs[k].dedup == r.dedup && db2.dedups == db.dedups
    requires forall x | x in db.jobs :: db2.jobs[x] == db.jobs[x]
    ensures DedupInv(HoldDedup(db2, r, k.id))
  {
    var db3 := HoldDedup(db2, r, k.id);
    forall x | x in db3.jobs && !Finished(db3.jobs[x]) && db3.jobs[x].dedup.Some?
      ensures Held(db3, x, db3.jobs[x].dedup.value) {
      if x != k { assert Held(db, x, db.jobs[x].dedup.value); }
    }
  }

  lemma AddInv(db: Db, r: Request)
    requires DedupInv(db) && PlainDedup(r.payload)
    ensures DedupInv(Add(db, r).0)
  {
    hide Insert, AddExisting, Suppress, DedupInv, TagsKept;
    if r.queue in db.queues {
      var q := db.queues[r.queue];
      var k := Key(r.queue, if r.custom.Some? then r.custom.value else q.jobNum + 1);
      var db1 := if r.custom.Some? then db else PutQueue(db, r.queue, q.(jobNum := q.jobNum + 1));
      NumberTags(db, r.queue);
      TagsInv(db, PutQueue(db, r.queue, q.(jobNum := q.jobNum + 1)));
      if r.parent.Some? && r.parent.value !in db1.jobs {
      } else if r.custom.Some? && k in db1.jobs {
        ExistingInv(db1, r, k);
        TagsInv(db1, AddExisting(db1, r, k).0);
      } else if Suppressed(db1, r) {
        SuppressInv(db1, r);
      } else {
        InsertInv(db1, r, k);
      }
    }
  }

  lemma NumberTags(db: Db, q: QueueId)
    requires q in db.queues
    ensures TagsKept(db, PutQueue(db, q, db.queues[q].(jobNum := db.queues[q].jobNum + 1)))
  {}

  predicate PlainNodes(n: Node) {
    PlainDedup(n.payload) && forall i | 0 <= i < |n.children| :: PlainNodes(n.children[i])
  }

  lemma {:induction false} LinkAllTags(db: Db, p: Key, ks: seq<Key>)
    ensures TagsKept(db, LinkAll(db, p, ks))
  {
    if ks != [] {
      hide Link;
      LinkAllTags(db, p, ks[..|ks| - 1]);
      LinkTags(LinkAll(db, p, ks[..|ks| - 1]), p, ks[|ks| - 1]);
    }
  }

  lemma EnsureTags(db: Db, q: QueueId)
    ensures TagsKept(db, EnsureQueue(db, q))
  {}

  lemma {:induction false} NodeInv(db: Db, n: Node, parent: Option<Key>)
    requires DedupInv(db) && PlainNodes(n)
    ensures AddNode(db, n, parent).Built? ==> DedupInv(AddNode(db, n, parent).db)
    decreases n, 0
  {
    hide Add, DedupInv, LinkAll, EnsureQueue, TagsKept;
    var db0 := EnsureQueue(db, n.queue);
    EnsureTags(db, n.queue);
    TagsInv(db, db0);
    AddInv(db0, NodeRequest(n, parent));
    var (db1, r) := Add(db0, NodeRequest(n, parent));
    if r.Added? && n.children != [] && r.id == n.id {
      NodesInv(db1, n.children, KeyOf(n));
      var b := AddChildren(db1, n.children, KeyOf(n));
      if b.BuiltAll? {
        LinkAllTags(b.db, KeyOf(n), b.ids);
        TagsInv(b.db, LinkAll(b.db, KeyOf(n), b.ids));
      }
    }
  }

  lemma {:induction false} NodesInv(db: Db, ns: seq<Node>, p: Key)
    requires DedupInv(db) && forall i | 0 <= i < |ns| :: PlainNodes(ns[i])
    ensures AddChildren(db, ns, p).BuiltAll? ==> DedupInv(AddChildren(db, ns, p).db)
    decreases ns, 1
  {
    hide DedupInv, AddNode;
    if ns != [] {
      NodeInv(db, ns[0], Some(p));
      var b := AddNode(db, ns[0], Some(p));
      if b.Built? { NodesInv(b.db, ns[1..], p); }
    }
  }

  // ---------------------------------------------------------------- the end of a holder

  /** Nobody unfinished holds a deduplication row that is dropped. */
  lemma DroppedInv(db: Db, k: Key, s: set<DedupKey>)
    requires DedupInv(db) && k in db.jobs && Finished(db.jobs[k])
    requires forall d | d in s && d in db.dedups :: d.queue == k.queue && db.dedups[d].job == k.id
    ensures DedupInv(DeleteDedups(db, s))
  {
    var db' := DeleteDedups(db, s);
    forall x | x in db'.jobs && !Finished(db'.jobs[x]) && db'.jobs[x].dedup.Some?
      ensures Held(db', x, db'.jobs[x].dedup.value) {
      assert Held(db, x, db.jobs[x].dedup.value);
    }
  }

  lemma FirstStashUnique(db: Db, k: Key, d: DedupKey)
    requires IsFirstStash(db, k, d)
    ensures Requeue(db, k) == Add(DeleteDedups(db, {d}), StashRequest(db, d)).0
  {
    hide Add;
    forall x | IsFirstStash(db, k, x) ensures x == d { assert IsStash(db, k, x) && IsStash(db, k, d); }
  }

  lemma RequeueInv(db: Db, k: Key)
    requires DedupInv(db) && k in db.jobs && Finished(db.jobs[k])
    ensures DedupInv(Requeue(db, k))
  {
    hide Add, DedupInv;
    if d :| IsFirstStash(db, k, d) {
      FirstStashUnique(db, k, d);
      DroppedInv(db, k, {d});
      StashPlain(db, d);
      AddInv(DeleteDedups(db, {d}), StashRequest(db, d));
    } else {
      DroppedInv(db, k, set d | d in db.dedups && d.queue == k.queue
        && db.dedups[d].job == k.id && db.dedups[d].expires.None?);
    }
  }

  lemma StashPlain(db: Db, d: DedupKey)
    requires DedupInv(db) && d in db.dedups && db.dedups[d].pending.Some?
    ensures PlainDedup(db.dedups[d].pending.value)
  {}

  lemma {:induction false} ForceParentsTags(db: Db, ps: seq<Key>)
    ensures TagsKept(db, ForceParents(db, ps))
  {
    if ps != [] {
      hide ForceParent;
      var front, p := ps[..|ps| - 1], ps[|ps| - 1];
      ForceParentsTags(db, front);
      if p in ForceParents(db, front).jobs { ForceTag(ForceParents(db, front), p); }
    }
  }

  lemma ForceTag(db: Db, p: Key)
    requires p in db.jobs
    ensures TagsKept(db, ForceParent(db, p))
  {}

  lemma {:induction false} SettleParentsTags(db: Db, ps: seq<Key>, cpof: bool)
    ensures TagsKept(db, SettleParents(db, ps, cpof))
  {
    if ps != [] {
      hide ReleaseParent, HasBlockingEdge;
      var front, p := ps[..|ps| - 1], ps[|ps| - 1];
      SettleParentsTags(db, front, cpof);
      if p in SettleParents(db, front, cpof).jobs { ReleaseTag(SettleParents(db, front, cpof), p); }
    }
  }

  lemma NotifyTags(db: Db, a: FinishArgs, opts: JobOpts)
    ensures TagsKept(db, NotifyParents(db, a, opts))
  {
    hide SettleParents, ForceParents;
    NotifySplit(db, a, opts);
    ForceParentsTags(ResolveEdges(db, a.key, opts, a.ok, a.keep == Some(0)), Notified(db, a));
    SettleParentsTags(Resolved(db, a, opts), Notified(db, a), !a.ok && opts.cpof);
  }

  lemma TrimTags(db: Db, a: FinishArgs)
    ensures TagsKept(db, Trim(db, a))
  {
    hide Doomed;
  }

  lemma FinishInv(db: Db, a: FinishArgs)
    requires DedupInv(db) && LeasesSound(db) && Finishes(db, a)
    ensures DedupInv(DoFinish(db, a))
  {
    hide Requeue, NotifyParents, Trim, DedupInv, TagsKept;
    var j := db.jobs[a.key];
    assert Sound(LifeOf(j)) && j.state == Active;
    var db1 := Put(db, a.key, EndedRow(j, a.ok, db.now));
    EndedTags(db, a);
    TagsInv(db, db1);
    RequeueInv(db1, a.key);
    var db2 := Requeue(db1, a.key);
    NotifyTags(db2, a, j.payload.opts);
    TagsInv(db2, NotifyParents(db2, a, j.payload.opts));
    TrimTags(NotifyParents(db2, a, j.payload.opts), a);
    TagsInv(NotifyParents(db2, a, j.payload.opts), DoFinish(db, a));
  }

  lemma EndedTags(db: Db, a: FinishArgs)
    requires a.key in db.jobs
    ensures TagsKept(db, Put(db, a.key, EndedRow(db.jobs[a.key], a.ok, db.now)))
  {}

  /** No time to live, no `replace`, no finished job brought back. */
  predicate OneLife(op: Op) {
    match op
    case OpAdd(r) => PlainDedup(r.payload)
    case OpFlow(n, _) => PlainNodes(n)
    case OpReprocess(_, _, _, _) => false
    case OpMoveBatch(_, from, _, _) => from == Delayed
    case _ => true
  }

  lemma StepDedup(db: Db, op: Op)
    requires DedupInv(db) && LeasesSound(db) && OneLife(op)
    ensures DedupInv(Step(db, op))
  {
    hide DedupInv, TagsKept, Add, AddNode, DoFinish, Finishes;
    if TagOp(op) {
      hide Step;
      StepTags(db, op);
      TagsInv(db, Step(db, op));
    } else {
      match op
      case OpAdd(r) => AddInv(db, r);
      case OpFlow(n, p) => NodeInv(db, n, p);
      case OpFinish(a) => if Finishes(db, a) { FinishInv(db, a); }
    }
  }

  lemma {:induction false} RunDedup(db: Db, ops: seq<Op>)
    requires DedupInv(db) && LeasesSound(db) && forall i | 0 <= i < |ops| :: OneLife(ops[i])
    ensures DedupInv(Run(db, ops))
  {
    if ops != [] {
      hide Step, DedupInv, OneLife;
      RunDedup(db, ops[..|ops| - 1]);
      RunSound(db, ops[..|ops| - 1]);
      StepDedup(Run(db, ops[..|ops| - 1]), ops[|ops| - 1]);
    }
  }

  /** In every reachable state a deduplication id has at most one unfinished job. */
  lemma OneJobPerId(db: Db, ops: seq<Op>, x: Key, y: Key)
    requires Initial(db) && forall i | 0 <= i < |ops| :: OneLife(ops[i])
    requires var end := Run(db, ops);
      x in end.jobs && y in end.jobs && x.queue == y.queue && !Finished(end.jobs[x]) && !Finished(end.jobs[y])
      && end.jobs[x].dedup.Some? && end.jobs[x].dedup == end.jobs[y].dedup
    ensures x == y
  {
    hide Step;
    RunDedup(db, ops);
    assert Held(Run(db, ops), x, Run(db, ops).jobs[x].dedup.value);
    assert Held(Run(db, ops), y, Run(db, ops).jobs[y].dedup.value);
  }

  /** An add under a taken id is refused just when another parent that still exists has the row;
      otherwise it leaves the row linked under the new parent, and asking again changes nothing. */
  lemma RelinksOnce(db: Db, r: Request, k: Key)
    requires k in db.jobs && (r.parent.Some? ==> r.parent.value in db.jobs)
    ensures var (db', out) := AddExisting(db, r, k);
      && k in db'.jobs
      && (out == Added(k.id) ==> AddExisting(db', r, k) == (db', out))
      && (out == Added(k.id) && r.parent.Some? ==> Linked(db', r.parent.value, k) && db'.jobs[k].parent == r.parent)
      && (out != Added(k.id) ==> db' == db && out == ParentConflict)
  {
    hide Link, Linked;
    if r.parent.Some? && AddExisting(db, r, k).1 == Added(k.id) {
      var p := r.parent.value;
      var db1 := Link(db, p, k);
      LinkTwice(db, p, k);
      LinkGains(db, p, k);
      var db' := Put(db1, k, db1.jobs[k].(parent := r.parent));
      ParentFieldLinks(db1, k, r.parent, p);
      assert db'.jobs[k := db'.jobs[k].(parent := r.parent)] == db'.jobs;
    }
  }

  /** The parent field of a row plays no part in linking it. */
  lemma ParentFieldLinks(db: Db, k: Key, parent: Option<Key>, p: Key)
    requires k in db.jobs && p in db.jobs && Linked(db, p, k) && Link(db, p, k) == db
    ensures var db' := Put(db, k, db.jobs[k].(parent := parent));
      Linked(db', p, k) && Link(db', p, k) == db'
  {
    var db' := Put(db, k, db.jobs[k].(parent := parent));
    SameEdgesSameLinks(db, db', p, k);
    assert LinkStatus(db'.jobs[k]) == LinkStatus(db.jobs[k]);
    if LinkStatus(db.jobs[k]) != Pending && !HasBlockingEdge(db, p) { NoRelease(db, p); }
  }

  lemma NoRelease(db: Db, p: Key)
    requires p in db.jobs && ReleaseParent(db, p) == db
    ensures db.jobs[p].state != Parked
  {
    ReleaseParentShape(db, p);
  }

  // ---------------------------------------------------------------- the stash becomes a job

  /** The job the stash turns into. */
  ghost function NextOf(db: Db, q: QueueId): Key {
    Key(q, QueueOf(db, q).jobNum + 1)
  }

  /** The rows of `db'` are those of `db` plus, if its number is free, one new idle job with the
      stashed payload, which now holds the id; otherwise the stash is gone and no job came of it. */
  ghost predicate StashQueued(db: Db, db': Db, d: DedupKey, p: Payload) {
    var k := NextOf(db, d.queue);
    if k !in db.jobs then
      && k in db'.jobs && db'.jobs[k].payload == p && db'.jobs[k].dedup == Some(d.id) && PhaseOf(db'.jobs[k]) == Idle
      && d in db'.dedups && db'.dedups[d].job == k.id && db'.dedups[d].pending.None?
      && (forall x | x in db'.jobs :: x in db.jobs || x == k)
    else d !in db'.dedups && (forall x | x in db'.jobs :: x in db.jobs)
  }

  lemma StashAdded(db: Db, d: DedupKey)
    requires d in db.dedups && db.dedups[d].pending.Some? && d.queue in db.queues
    ensures StashQueued(db, Add(DeleteDedups(db, {d}), StashRequest(db, d)).0, d, db.dedups[d].pending.value)
  {
    hide InsertRow, InsertConflict, ClearStale;
    var db1, r := DeleteDedups(db, {d}), StashRequest(db, d);
    var q := db.queues[d.queue];
    var k := NextOf(db, d.queue);
    var db2 := PutQueue(db1, d.queue, q.(jobNum := q.jobNum + 1));
    assert !Suppressed(db2, r);
    assert Add(db1, r).0 == Insert(db2, r, k).0 by { StashInsert(db, d); }
    var db3 := ClearStale(db2, d.queue, d.id);
    ClearStaleGentle(db2, d.queue, d.id);
    ClearStaleDedups(db2, d.queue, d.id);
    if k in db3.jobs {
      ConflictTags(db3, k, r);
      ConflictKeepsRows(db3, k, r);
    } else {
      InsertRowGains(db3, k, r);
      InsertRowTag(db3, k, r);
    }
  }

  lemma StashInsert(db: Db, d: DedupKey)
    requires d in db.dedups && db.dedups[d].pending.Some? && d.queue in db.queues
    ensures var db1, r := DeleteDedups(db, {d}), StashRequest(db, d); var q := db.queues[d.queue];
      Add(db1, r).0 == Insert(PutQueue(db1, d.queue, q.(jobNum := q.jobNum + 1)), r, NextOf(db, d.queue)).0
  {
    hide Insert;
  }

  lemma ClearStaleDedups(db: Db, q: QueueId, d: DedupId)
    ensures ClearStale(db, q, d).dedups == db.dedups
  {}

  /** Rows and deduplication rows carried through the rest of the finish. */
  ghost predicate CarriedOn(db: Db, db': Db) {
    && db'.dedups == db.dedups
    && (forall k | k in db'.jobs :: k in db.jobs)
    && (forall k | k in db.jobs && PhaseOf(db.jobs[k]) == Idle ::
      k in db'.jobs && CalmRow(db.jobs[k], db'.jobs[k]) && db'.jobs[k].dedup == db.jobs[k].dedup)
  }

  lemma NotifyCarriesOn(db: Db, a: FinishArgs, opts: JobOpts)
    requires Standing(db) && InPlace(db)
    ensures CarriedOn(db, NotifyParents(db, a, opts))
  {
    hide SettleParents, ForceParents, ResolveEdges, Standing, Notified, QueuesCalm, Released, Lets, EntersAtTail;
    hide InPlace, CalmRow;
    NotifySplit(db, a, opts);
    StandsGrounded(db);
    NotifiedListed(db, a);
    var ps, db2 := Notified(db, a), Resolved(db, a, opts);
    ResolvedQueues(db, a, opts);
    ResolvedPks(db, a, opts);
    SettleParentsExactly(db2, ps, !a.ok && opts.cpof);
    NotifyParentsCalm(db, a, opts);
    NotifyTags(db, a, opts);
    CalmCarries(db, NotifyParents(db, a, opts)) by { StandsPks(db); }
  }

  lemma CalmCarries(db: Db, db': Db)
    requires Calm(db, db') && TagsKept(db, db') && PksBounded(db)
    requires forall k | k in db.jobs :: k in db'.jobs && db'.jobs[k].pk == db.jobs[k].pk
    ensures CarriedOn(db, db')
  {
    forall k | k in db.jobs ensures CalmRow(db.jobs[k], db'.jobs[k]) { assert KeptOrNew(db, db', k); }
  }

  lemma TrimCarriesOn(db: Db, a: FinishArgs)
    requires a.key in db.jobs ==> PhaseOf(db.jobs[a.key]) != Idle
    ensures CarriedOn(db, Trim(db, a))
  {
    hide RowNumber, TooOld;
  }

  lemma CarriedQueued(db: Db, db1: Db, db2: Db, d: DedupKey, p: Payload)
    requires StashQueued(db, db1, d, p) && CarriedOn(db1, db2)
    ensures StashQueued(db, db2, d, p)
  {}

  /** The rest of a finish, from the requeue on, leaves idle rows and deduplication rows alone. */
  lemma FinishTailCarries(db: Db, a: FinishArgs, opts: JobOpts)
    requires Standing(db) && InPlace(db) && a.key in db.jobs && Finished(db.jobs[a.key])
    ensures var db2 := Requeue(db, a.key); var db3 := NotifyParents(db2, a, opts);
      CarriedOn(db2, db3) && CarriedOn(db3, Trim(db3, a))
  {
    hide Requeue, NotifyParents, Trim, Calm, Standing, InPlace, EdgesCalm, OnlyParks, CarriedOn;
    var db2 := Requeue(db, a.key);
    var db3 := NotifyParents(db2, a, opts);
    RequeueKeeps(db, a.key);
    GentleStanding(db, db2);
    CalmQueuesExist(db, db2);
    NotifyCarriesOn(db2, a, opts);
    NotifyTags(db2, a, opts);
    assert a.key in db2.jobs && Finished(db2.jobs[a.key]);
    TrimCarriesOn(db3, a);
  }

  /** When the holder of a stash ends, exactly one job comes of it, with the stashed name, data
      and options, if and only if the next number of the queue is not taken by a custom id. */
  lemma StashBecomesJob(db: Db, a: FinishArgs, d: DedupKey)
    requires Sane(db) && Finishes(db, a) && IsFirstStash(db, a.key, d)
    ensures StashQueued(db, DoFinish(db, a), d, db.dedups[d].pending.value)
  {
    hide Requeue, NotifyParents, Trim, Standing, InPlace, Add, StashQueued, CarriedOn, EndedRow;
    var j := db.jobs[a.key];
    assert Sound(LifeOf(j)) && j.state == Active;
    var db1 := Put(db, a.key, EndedRow(j, a.ok, db.now));
    EndedState(j, a.ok, db.now);
    EndedRooted(db, a);
    RootedStanding(db, db1);
    EndedInPlace(db, a);
    assert IsFirstStash(db1, a.key, d) by { SameStashes(db, db1, a.key, d); }
    FirstStashUnique(db1, a.key, d);
    assert d.queue in db1.queues by { InPlaceAt(db, a.key); }
    StashAdded(db1, d);
    var db2 := Requeue(db1, a.key);
    FinishTailCarries(db1, a, j.payload.opts);
    var db3 := NotifyParents(db2, a, j.payload.opts);
    CarriedQueued(db1, db2, db3, d, db.dedups[d].pending.value);
    CarriedQueued(db1, db3, Trim(db3, a), d, db.dedups[d].pending.value);
    SameQueued(db, db1, DoFinish(db, a), d, db.dedups[d].pending.value);
  }

  lemma EndedState(j: Job, ok: bool, now: Millis)
    ensures Finished(EndedRow(j, ok, now))
  {}

  lemma SameStashes(db: Db, db1: Db, k: Key, d: DedupKey)
    requires db1.dedups == db.dedups && IsFirstStash(db, k, d)
    ensures IsFirstStash(db1, k, d)
  {
    forall x | IsStash(db1, k, x) ensures d.id <= x.id { assert IsStash(db, k, x); }
  }

  lemma SameQueued(db: Db, db1: Db, db': Db, d: DedupKey, p: Payload)
    requires db1.jobs.Keys == db.jobs.Keys && db1.queues == db.queues && StashQueued(db1, db', d, p)
    ensures StashQueued(db, db', d, p)
  {}

  /** Without a stash a finish brings no job, and the rows that name the job and carry no expiry
      are dropped. */
  lemma NoStashNoJob(db: Db, a: FinishArgs)
    requires Sane(db) && Finishes(db, a) && forall d :: !IsFirstStash(db, a.key, d)
    ensures DoFinish(db, a).jobs.Keys <= db.jobs.Keys
    ensures forall d | d in DoFinish(db, a).dedups ::
      d in db.dedups && !(d.queue == a.key.queue && db.dedups[d].job == a.key.id && db.dedups[d].expires.None?)
  {
    hide NotifyParents, Trim, Standing, InPlace, CarriedOn, EndedRow;
    var j := db.jobs[a.key];
    assert Sound(LifeOf(j)) && j.state == Active;
    var db1 := Put(db, a.key, EndedRow(j, a.ok, db.now));
    EndedState(j, a.ok, db.now);
    EndedRooted(db, a);
    RootedStanding(db, db1);
    EndedInPlace(db, a);
    forall d ensures !IsFirstStash(db1, a.key, d) {
      if IsFirstStash(db1, a.key, d) { SameStashes(db1, db, a.key, d); }
    }
    FinishTailCarries(db1, a, j.payload.opts);
    var db2 := Requeue(db1, a.key);
    var db3 := NotifyParents(db2, a, j.payload.opts);
    CarriedRows(db2, db3);
    CarriedRows(db3, Trim(db3, a));
  }

  lemma CarriedRows(db: Db, db': Db)
    requires CarriedOn(db, db')
    ensures db'.jobs.Keys <= db.jobs.Keys && db'.dedups == db.dedups
  {}

  // ---------------------------------------------------------------- the last suppressed add

  /** The row of a stash: held by `h`, without expiry, the given add pending. */
  ghost predicate Stashed(db: Db, d: DedupKey, row: Dedup) {
    d in db.dedups && db.dedups[d] == row && row.expires.None? && Key(d.queue, row.job) in db.jobs
  }

  /** The add gets as far as deduplication: its parent exists and its own id is not taken. */
  ghost predicate Reached(db: Db, r: Request) {
    && r.queue in db.queues
    && (r.parent.Some? ==> r.parent.value in db.jobs)
    && (r.custom.Some? ==> Key(r.queue, r.custom.value) !in db.jobs)
  }

  predicate Under(r: Request, d: DedupKey) {
    r.queue == d.queue && r.dedup == Some(d.id)
  }

  /** The add asks to be kept when its id is held by an active job. */
  predicate AsksToBeKept(r: Request) {
    r.kind != FlowParent && r.payload.opts.dedup.Some? && r.payload.opts.dedup.value.keepLast
  }

  predicate Prolongs(r: Request) {
    r.payload.opts.dedup.Some? && r.payload.opts.dedup.value.extend && r.payload.opts.dedup.value.ttl > 0
  }

  /** The add gets at the row of `d`, held by `h`: it replaces the holder, becomes the stash in its
      turn, or puts an expiry on the row. */
  ghost predicate Touches(db: Db, r: Request, d: DedupKey, h: Key)
    requires h in db.jobs
  {
    Under(r, d) && Reached(db, r)
    && if Replaces(r) then db.jobs[h].state in Replaceable(r.kind)
       else (AsksToBeKept(r) && db.jobs[h].state == Active) || Prolongs(r)
  }

  predicate NodesElsewhere(n: Node, d: DedupKey) {
    !(n.queue == d.queue && n.dedup == Some(d.id)) && forall i | 0 <= i < |n.children| ::
      NodesElsewhere(n.children[i], d)
  }

  /** Under an active holder the node is folded without a trace, or turned away by it. */
  predicate Folds(r: Request, d: DedupKey) {
    Under(r, d) ==> Replaces(r) || !(AsksToBeKept(r) || Prolongs(r))
  }

  predicate NodesFold(n: Node, d: DedupKey) {
    Folds(NodeRequest(n, None), d) && forall i | 0 <= i < |n.children| :: NodesFold(n.children[i], d)
  }

  /** No add that gets at the stash, and not the end of its holder. */
  ghost predicate LeavesStash(db: Db, op: Op, d: DedupKey, row: Dedup) {
    var h := Key(d.queue, row.job);
    h in db.jobs ==>
    match op
    case OpAdd(r) => !Touches(db, r, d, h)
    case OpFlow(n, _) => NodesElsewhere(n, d) || (db.jobs[h].state == Active && NodesFold(n, d))
    case OpFinish(a) => !(a.key == h && Finishes(db, a))
    case _ => true
  }

  lemma ElsewhereInsert(db: Db, r: Request, k: Key, d: DedupKey)
    requires d in db.dedups && r.queue == k.queue && !(r.queue == d.queue && r.dedup == Some(d.id))
    ensures var db' := Insert(db, r, k).0; d in db'.dedups && db'.dedups[d] == db.dedups[d]
  {
    hide InsertRow, Link, InsertConflict, ClearStale;
    var db1 := if r.dedup.Some? then ClearStale(db, r.queue, r.dedup.value) else db;
    if r.dedup.Some? { ClearStaleDedups(db, r.queue, r.dedup.value); }
    if k in db1.jobs {
      ConflictTags(db1, k, r);
    } else {
      InsertRowDedups(db1, k, r);
      if r.parent.Some? { LinkTags(HoldDedup(InsertRow(db1, k, r), r, k.id), r.parent.value, k); }
    }
  }

  lemma InsertRowDedups(db: Db, k: Key, r: Request)
    ensures InsertRow(db, k, r).dedups == db.dedups
  {
    hide Least;
  }

  /** An add under another id leaves the row alone. */
  lemma ElsewhereAdd(db: Db, r: Request, d: DedupKey)
    requires d in db.dedups && !(r.queue == d.queue && r.dedup == Some(d.id))
    ensures var db' := Add(db, r).0; d in db'.dedups && db'.dedups[d] == db.dedups[d]
  {
    hide Insert, AddExisting, LiveDedup, DeleteJobs;
    if r.queue in db.queues {
      var q := db.queues[r.queue];
      var k := Key(r.queue, if r.custom.Some? then r.custom.value else q.jobNum + 1);
      var db1 := if r.custom.Some? then db else PutQueue(db, r.queue, q.(jobNum := q.jobNum + 1));
      ElsewhereInsert(db1, r, k, d);
      if r.custom.Some? && k in db1.jobs {
        ExistingInv(db1, r, k);
      } else if Replaces(r) {
        var dk := DedupKey(r.queue, r.dedup.value);
        if dk in db1.dedups {
          var h := Key(r.queue, db1.dedups[dk].job);
          DeleteKeepsDedups(db1, {h});
          ElsewhereInsert(DeleteDedups(DeleteJobs(db1, {h}), {dk}), r, k, d);
        }
      }
    }
  }

  lemma DeleteKeepsDedups(db: Db, s: set<Key>)
    ensures DeleteJobs(db, s).dedups == db.dedups
  {}

  /** An add under the same id that does not get at the stash leaves no trace on it. */
  lemma FoldedAdd(db: Db, r: Request, d: DedupKey, row: Dedup)
    requires Stashed(db, d, row) && Under(r, d) && !Touches(db, r, d, Key(d.queue, row.job))
    ensures var db' := Add(db, r).0; d in db'.dedups && db'.dedups[d] == row
  {
    hide Insert, AddExisting;
    if r.queue in db.queues {
      var q := db.queues[r.queue];
      var k := Key(r.queue, if r.custom.Some? then r.custom.value else q.jobNum + 1);
      var db1 := if r.custom.Some? then db else PutQueue(db, r.queue, q.(jobNum := q.jobNum + 1));
      if r.custom.Some? && k in db1.jobs { ExistingInv(db1, r, k); }
      assert !Replaces(r) ==> Suppressed(db1, r);
    }
  }

  lemma {:induction false} ElsewhereNode(db: Db, n: Node, parent: Option<Key>, d: DedupKey)
    requires d in db.dedups && NodesElsewhere(n, d)
    ensures AddNode(db, n, parent).Built? ==>
      d in AddNode(db, n, parent).db.dedups && AddNode(db, n, parent).db.dedups[d] == db.dedups[d]
    decreases n, 0
  {
    hide Add, LinkAll, EnsureQueue;
    var db0 := EnsureQueue(db, n.queue);
    EnsureTags(db, n.queue);
    ElsewhereAdd(db0, NodeRequest(n, parent), d);
    var (db1, r) := Add(db0, NodeRequest(n, parent));
    if r.Added? && n.children != [] && r.id == n.id {
      ElsewhereNodes(db1, n.children, KeyOf(n), d);
      var b := AddChildren(db1, n.children, KeyOf(n));
      if b.BuiltAll? { LinkAllTags(b.db, KeyOf(n), b.ids); }
    }
  }

  lemma {:induction false} ElsewhereNodes(db: Db, ns: seq<Node>, p: Key, d: DedupKey)
    requires d in db.dedups && forall i | 0 <= i < |ns| :: NodesElsewhere(ns[i], d)
    ensures AddChildren(db, ns, p).BuiltAll? ==>
      d in AddChildren(db, ns, p).db.dedups && AddChildren(db, ns, p).db.dedups[d] == db.dedups[d]
    decreases ns, 1
  {
    hide AddNode;
    if ns != [] {
      ElsewhereNode(db, ns[0], Some(p), d);
      var b := AddNode(db, ns[0], Some(p));
      if b.Built? { ElsewhereNodes(b.db, ns[1..], p, d); }
    }
  }

  lemma FoldedNodeAdd(db: Db, r: Request, d: DedupKey, row: Dedup)
    requires Stashed(db, d, row) && db.jobs[Key(d.queue, row.job)].state == Active && Folds(r, d)
    ensures var db' := Add(db, r).0;
      Stashed(db', d, row) && db'.jobs[Key(d.queue, row.job)].state == Active
  {
    hide Add, Gentle, EdgesCalm;
    if Under(r, d) { FoldedAdd(db, r, d, row); } else { ElsewhereAdd(db, r, d); }
    AddGentle(db, r);
    ActiveStays(db, Add(db, r).0, Key(d.queue, row.job)) by { GentleCalm(db, Add(db, r).0); }
  }

  lemma GentleCalm(db: Db, db': Db)
    requires Gentle(db, db')
    ensures Calm(db, db')
  {}

  lemma ActiveStays(db: Db, db': Db, k: Key)
    requires Calm(db, db') && k in db.jobs && db.jobs[k].state == Active
    ensures k in db'.jobs && db'.jobs[k].state == Active
  {
    assert Carried(db, db', k);
  }

  lemma FoldedLinks(db: Db, p: Key, ks: seq<Key>, d: DedupKey, row: Dedup)
    requires Stashed(db, d, row) && db.jobs[Key(d.queue, row.job)].state == Active
    ensures var db' := LinkAll(db, p, ks);
      Stashed(db', d, row) && db'.jobs[Key(d.queue, row.job)].state == Active
  {
    hide LinkAll, Gentle, EdgesCalm;
    LinkAllGentle(db, p, ks);
    LinkAllTags(db, p, ks);
    ActiveStays(db, LinkAll(db, p, ks), Key(d.queue, row.job)) by { GentleCalm(db, LinkAll(db, p, ks)); }
  }

  lemma {:induction false} FoldedNode(db: Db, n: Node, parent: Option<Key>, d: DedupKey, row: Dedup)
    requires Stashed(db, d, row) && db.jobs[Key(d.queue, row.job)].state == Active && NodesFold(n, d)
    ensures AddNode(db, n, parent).Built? ==>
      (var db' := AddNode(db, n, parent).db; Stashed(db', d, row) && db'.jobs[Key(d.queue, row.job)].state == Active)
    decreases n, 0
  {
    hide Add, LinkAll;
    var db0 := EnsureQueue(db, n.queue);
    FoldedNodeAdd(db0, NodeRequest(n, parent), d, row);
    var (db1, r) := Add(db0, NodeRequest(n, parent));
    if r.Added? && n.children != [] && r.id == n.id {
      FoldedNodes(db1, n.children, KeyOf(n), d, row);
      var b := AddChildren(db1, n.children, KeyOf(n));
      if b.BuiltAll? { FoldedLinks(b.db, KeyOf(n), b.ids, d, row); }
    }
  }

  lemma {:induction false} FoldedNodes(db: Db, ns: seq<Node>, p: Key, d: DedupKey, row: Dedup)
    requires Stashed(db, d, row) && db.jobs[Key(d.queue, row.job)].state == Active
    requires forall i | 0 <= i < |ns| :: NodesFold(ns[i], d)
    ensures AddChildren(db, ns, p).BuiltAll? ==>
      (var db' := AddChildren(db, ns, p).db; Stashed(db', d, row) && db'.jobs[Key(d.queue, row.job)].state == Active)
    decreases ns, 1
  {
    hide AddNode;
    if ns != [] {
      FoldedNode(db, ns[0], Some(p), d, row);
      var b := AddNode(db, ns[0], Some(p));
      if b.Built? { FoldedNodes(b.db, ns[1..], p, d, row); }
    }
  }

  lemma ElsewhereFinish(db: Db, a: FinishArgs, d: DedupKey, row: Dedup)
    requires d in db.dedups && db.dedups[d] == row && a.key != Key(d.queue, row.job) && LeasesSound(db)
    requires Finishes(db, a)
    ensures var db' := DoFinish(db, a); d in db'.dedups && db'.dedups[d] == row
  {
    hide NotifyParents, Trim, Add;
    var j := db.jobs[a.key];
    assert Sound(LifeOf(j)) && j.state == Active;
    var db1 := Put(db, a.key, EndedRow(j, a.ok, db.now));
    if x :| IsFirstStash(db1, a.key, x) {
      FirstStashUnique(db1, a.key, x);
      assert IsStash(db1, a.key, x) && x != d;
      ElsewhereAdd(DeleteDedups(db1, {x}), StashRequest(db1, x), d);
    }
    var db2 := Requeue(db1, a.key);
    NotifyTags(db2, a, j.payload.opts);
    TrimTags(NotifyParents(db2, a, j.payload.opts), a);
  }

  lemma ReviveDedups(db: Db, op: Op)
    requires op.OpReprocess? || op.OpMoveBatch?
    ensures Step(db, op).dedups == db.dedups
  {
    hide Enqueue, Sorted, FirstN, MoveSeq, Movable;
    if op.OpReprocess? {
      if Reprocess(db, op.key, op.resetMade, op.resetStarted, op.target).1 == Ok {
        var j := db.jobs[op.key];
        EnqueueShape(db, op.key, Unlocked(j).(attemptsMade := if op.resetMade then 0 else j.attemptsMade,
          attemptsStarted := if op.resetStarted then 0 else j.attemptsStarted, finishedOn := None));
      }
    } else {
      var st := SourceState(op.from);
      MovedListed(db, op.queue, st, op.count, op.upTo);
      MoveSeqRows(db, FirstN(Sorted(BatchOrder(st), db.jobs, Movable(db, op.queue, st, op.upTo)), op.count), st);
    }
  }

  /** A stash, once made, stays until its holder ends or another add replaces it. */
  lemma StashStays(db: Db, op: Op, d: DedupKey, row: Dedup)
    requires LeasesSound(db) && Stashed(db, d, row) && LeavesStash(db, op, d, row)
    ensures d in Step(db, op).dedups && Step(db, op).dedups[d] == row
  {
    hide Add, AddNode, DoFinish, Finishes, Reprocess, MoveBatch, LeasesSound;
    if TagOp(op) {
      hide Step;
      StepTags(db, op);
    } else {
      match op
      case OpAdd(r) => if Under(r, d) { FoldedAdd(db, r, d, row); } else { ElsewhereAdd(db, r, d); }
      case OpFlow(n, p) =>
        if NodesElsewhere(n, d) { ElsewhereNode(db, n, p, d); } else { FoldedNode(db, n, p, d, row); }
      case OpFinish(a) => if Finishes(db, a) { ElsewhereFinish(db, a, d, row); }
      case OpReprocess(_, _, _, _) => ReviveDedups(db, op);
      case OpMoveBatch(_, _, _, _) => ReviveDedups(db, op);
    }
  }

  /** No step of the run gets at the stash or ends its holder. */
  ghost predicate StashLeft(db: Db, ops: seq<Op>, d: DedupKey, row: Dedup) {
    forall i | 0 <= i < |ops| :: LeavesStash(At(db, ops, i), ops[i], d, row)
  }

  /** A row under a primary key handed out before the step was there before the step. */
  lemma RowWasThere(db: Db, op: Op, k: Key)
    requires LeasesSound(db) && k in Step(db, op).jobs && Step(db, op).jobs[k].pk < db.nextPk
    ensures k in db.jobs && db.jobs[k].pk == Step(db, op).jobs[k].pk
  {
    hide Step, EffectOf;
    StepLife(db, op);
    LivedOn(db, EffectOf(db, op), Step(db, op), k);
  }

  lemma LivedOn(db: Db, e: Effect, db': Db, k: Key)
    requires AllLiveOn(db, e, db') && k in db'.jobs && db'.jobs[k].pk < db.nextPk
    ensures k in db.jobs && db.jobs[k].pk == db'.jobs[k].pk
  {
    assert LivesOn(db, e, db', k);
  }

  lemma {:induction false} NumbersGrow(db: Db, ops: seq<Op>)
    requires LeasesSound(db)
    ensures Run(db, ops).nextPk >= db.nextPk
  {
    if ops != [] {
      hide Step, EffectOf;
      NumbersGrow(db, ops[..|ops| - 1]);
      RunSound(db, ops[..|ops| - 1]);
      StepLife(Run(db, ops[..|ops| - 1]), ops[|ops| - 1]);
    }
  }

  lemma {:induction false} StashSurvives(db: Db, ops: seq<Op>, d: DedupKey, row: Dedup)
    requires LeasesSound(db) && PksBounded(db) && Stashed(db, d, row) && StashLeft(db, ops, d, row)
    requires var h := Key(d.queue, row.job); h in Run(db, ops).jobs && Run(db, ops).jobs[h].pk == db.jobs[h].pk
    ensures Stashed(Run(db, ops), d, row)
  {
    if ops != [] {
      hide Step, LeavesStash;
      var front, n := ops[..|ops| - 1], |ops| - 1;
      forall i | 0 <= i < n ensures LeavesStash(At(db, front, i), front[i], d, row) {
        assert front[..i] == ops[..i];
        assert LeavesStash(At(db, ops, i), ops[i], d, row);
      }
      assert LeavesStash(At(db, ops, n), ops[n], d, row);
      RunSound(db, front);
      NumbersGrow(db, front);
      RowWasThere(Run(db, front), ops[n], Key(d.queue, row.job));
      StashSurvives(db, front, d, row);
      StashStays(Run(db, front), ops[n], d, row);
    }
  }

  /** The add is suppressed while its holder is active and asks to be kept. */
  ghost predicate IsKept(db: Db, r: Request) {
    && Reached(db, r) && AsksToBeKept(r)
    && Suppressed(db, r) && db.jobs[Key(r.queue, db.dedups[DedupKey(r.queue, r.dedup.value)].job)].state == Active
  }

  lemma KeptIsStashed(db: Db, r: Request)
    requires IsKept(db, r)
    ensures var d := DedupKey(r.queue, r.dedup.value);
      Stashed(Add(db, r).0, d, Dedup(db.dedups[d].job, None, true, Some(r.payload)))
  {
    hide Insert, AddExisting, Replace;
    var q := db.queues[r.queue];
    assert Suppressed(if r.custom.Some? then db else PutQueue(db, r.queue, q.(jobNum := q.jobNum + 1)), r);
  }

  /** `keepLastIfActive` over a run: the last add suppressed while its holder was active is the
      one that becomes a job when that holder ends. */
  lemma LastSuppressedAddIsQueued(db: Db, r: Request, ops: seq<Op>, a: FinishArgs)
    requires Sane(db) && IsKept(db, r)
    requires var d := DedupKey(r.queue, r.dedup.value); var row := Dedup(db.dedups[d].job, None, true, Some(r.payload));
      var db1 := Add(db, r).0;
      && StashLeft(db1, ops, d, row) && a.key == Key(d.queue, row.job) && Finishes(Run(db1, ops), a)
      && Run(db1, ops).jobs[a.key].pk == db.jobs[a.key].pk
      && (forall x | IsStash(Run(db1, ops), a.key, x) :: d.id <= x.id)
    ensures var end := Run(Add(db, r).0, ops);
      StashQueued(end, DoFinish(end, a), DedupKey(r.queue, r.dedup.value), r.payload)
  {
    hide Add, Step, StashLeft, DoFinish, Sane, Finishes, StashQueued;
    var d := DedupKey(r.queue, r.dedup.value);
    var row := Dedup(db.dedups[d].job, None, true, Some(r.payload));
    var db1 := Add(db, r).0;
    var end := Run(db1, ops);
    StepSane(db, OpAdd(r));
    AddStep(db, r);
    SaneSound(db1);
    KeptIsStashed(db, r);
    assert a.key in db1.jobs && db1.jobs[a.key] == db.jobs[a.key] by { KeptRows(db, r); }
    assert a.key in end.jobs by { FinishesThere(end, a); }
    StashSurvives(db1, ops, d, row);
    RunSane(db1, ops);
    assert IsStash(end, a.key, d);
    StashBecomesJob(end, a, d);
  }

  lemma KeptRows(db: Db, r: Request)
    requires IsKept(db, r)
    ensures Add(db, r).0.jobs == db.jobs
  {
    hide Insert, AddExisting, Replace;
    var q := db.queues[r.queue];
    assert Suppressed(if r.custom.Some? then db else PutQueue(db, r.queue, q.(jobNum := q.jobNum + 1)), r);
  }

  lemma FinishesThere(db: Db, a: FinishArgs)
    requires Finishes(db, a)
    ensures a.key in db.jobs
  {}

  lemma AddStep(db: Db, r: Request)
    ensures Step(db, OpAdd(r)) == Add(db, r).0
  {
    hide Add;
  }
}
